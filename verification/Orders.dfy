/** The order aggregate, the saga graph, and what each order-service transaction does to the order
    tables. */
module Orders {
  import opened Common

  datatype Status = Pending | PendingPayment | PaymentFailed | Confirmed | Processing | Shipped | Delivered | Cancelled

  datatype SagaState = Started | StockReserved | AwaitingPayment | Paid | Completed | Compensating | Compensated
      | SagaFailed

  datatype Line = Line(product: Id, name: string, quantity: int, unitPrice: int, total: int)

  datatype Order = Order(id: Id, customer: Id, status: Status, total: int, currency: string, lines: seq<Line>,
      version: nat)

  datatype OrderEvent = OrderEvent(
    kind: OrderEventKind, order: Id, customer: Id, status: Status, total: int, currency: string)

  // orders, order_sagas and the order service's outbox.
  datatype OrderTables = OrderTables(orders: map<Id, Order>, sagas: map<Id, SagaState>, outbox: seq<OrderEvent>)

  // ---------- the saga graph ----------

  function Successors(s: SagaState): set<SagaState> {
    match s
    case Started => {StockReserved, SagaFailed}
    case StockReserved => {AwaitingPayment, Compensating}
    case AwaitingPayment => {Paid, Compensating}
    case Paid => {Completed, Compensating}
    case Compensating => {Compensated}
    case _ => {}
  }

  predicate CanTransition(from: SagaState, to: SagaState) {
    from == to || to in Successors(from)
  }

  // A walk of accepted transitions.
  predicate Walk(path: seq<SagaState>) {
    |path| == 1 ||
    (|path| > 1 && Walk(path[..|path| - 1]) && CanTransition(path[|path| - 2], path[|path| - 1]))
  }

  // Along any accepted walk, a saga that began compensating is never paid or completed afterwards.
  lemma {:induction false} CompensationIsFinal(path: seq<SagaState>)
    requires Walk(path) && path[0] == Compensating
    ensures path[|path| - 1] in {Compensating, Compensated}
  {
    if |path| > 1 {
      CompensationIsFinal(path[..|path| - 1]);
    }
  }

  // Where a saga may stand after leaving a state: forward to its end, or from any state that holds stock
  // into compensation; a saga that failed to start and every closed one stay where they are.
  predicate Leads(from: SagaState, to: SagaState) {
    match from
    case Started => true
    case StockReserved => to != Started && to != SagaFailed
    case AwaitingPayment => to in {AwaitingPayment, Paid, Completed, Compensating, Compensated}
    case Paid => to in {Paid, Completed, Compensating, Compensated}
    case Compensating => to in {Compensating, Compensated}
    case _ => to == from
  }

  // Walks end nowhere else.
  lemma {:induction false} WalkLeads(path: seq<SagaState>)
    requires |path| > 0 && Walk(path)
    ensures Leads(path[0], path[|path| - 1])
  {
    if |path| > 1 {
      WalkLeads(path[..|path| - 1]);
    }
  }

  lemma {:induction false} WalkFrom(from: SagaState, path: seq<SagaState>)
    requires |path| > 0 && Walk(path) && CanTransition(from, path[0])
    ensures Walk([from] + path)
  {
    var all := [from] + path;
    if |path| > 1 {
      WalkFrom(from, path[..|path| - 1]);
      assert all[..|all| - 1] == [from] + path[..|path| - 1];
    } else {
      assert all[..1] == [from];
    }
  }

  // And every such state is reached by one.
  lemma {:induction false} LeadsWalk(from: SagaState, to: SagaState) returns (path: seq<SagaState>)
    requires Leads(from, to)
    ensures |path| > 0 && Walk(path) && path[0] == from && path[|path| - 1] == to
    decreases match from case Started => 4 case StockReserved => 3 case AwaitingPayment => 2 case Paid => 1 case _ => 0
  {
    path := [to];
    if from != to {
      if from == Started && to != SagaFailed {
        path := LeadsWalk(StockReserved, to);
      } else if from.StockReserved? && to != Compensating && to != Compensated {
        path := LeadsWalk(AwaitingPayment, to);
      } else if from.AwaitingPayment? && to != Compensating && to != Compensated {
        path := LeadsWalk(Paid, to);
      } else if from != Compensating && to == Compensated {
        path := [Compensating, Compensated];
        WalkFrom(Compensating, [Compensated]);
      }
      WalkFrom(from, path);
      path := [from] + path;
    }
  }

  // ---------- the aggregate ----------

  function ApplyAction(ord: Order, to: Status): Result<Order> {
    if to == Cancelled then
      (if ord.status != Pending && ord.status != PendingPayment then Err(AlreadyProcessed)
          else Ok(ord.(status := Cancelled)))
    else
      var from := if to == PendingPayment then Pending else PendingPayment;
      if ord.status != from then Err(AlreadyProcessed) else Ok(ord.(status := to))
  }

  predicate IsTerminal(s: Status) {
    s == Confirmed || s == PaymentFailed || s == Cancelled
  }

  // ---------- transactions ----------

  function EventOf(kind: OrderEventKind, ord: Order): OrderEvent {
    OrderEvent(kind, ord.id, ord.customer, ord.status, ord.total, ord.currency)
  }

  // An event of the order at a status it reached.
  function EventAt(kind: OrderEventKind, ord: Order, status: Status): OrderEvent {
    OrderEvent(kind, ord.id, ord.customer, status, ord.total, ord.currency)
  }

  function Enqueue(t: OrderTables, e: OrderEvent): OrderTables {
    t.(outbox := t.outbox + [e])
  }

  // Save under the primary key and the CHECK constraints on amounts.
  function SaveOrderTx(t: OrderTables, ord: Order): Result<OrderTables> {
    if ord.id in t.orders then Err(Constraint)
    else if ord.total < 0 then Err(Constraint)
    else if exists i | 0 <= i < |ord.lines| ::
              ord.lines[i].quantity <= 0 || ord.lines[i].unitPrice < 0 || ord.lines[i].total < 0 then Err(Constraint)
    else Ok(Enqueue(t.(orders := t.orders[ord.id := ord]), EventOf(OrderCreated, ord)))
  }

  // An order is stored with its first event if and only if it is new and no amount of it is out of range.
  lemma {:induction false} SaveOrderExact(t: OrderTables, ord: Order)
    ensures SaveOrderTx(t, ord).Ok? <==>
            && ord.id !in t.orders && ord.total >= 0
            && forall i | 0 <= i < |ord.lines| ::
                 ord.lines[i].quantity > 0 && ord.lines[i].unitPrice >= 0 && ord.lines[i].total >= 0
    ensures SaveOrderTx(t, ord).Err? ==> SaveOrderTx(t, ord) == Err(Constraint)
    ensures SaveOrderTx(t, ord).Ok? ==>
              SaveOrderTx(t, ord).value ==
              OrderTables(t.orders[ord.id := ord], t.sagas, t.outbox + [EventAt(OrderCreated, ord, ord.status)])
  {
  }

  function StartSaga(t: OrderTables, o: Id): Result<OrderTables> {
    if o in t.sagas || o !in t.orders then Err(Constraint) else Ok(t.(sagas := t.sagas[o := Started]))
  }

  function MoveSaga(t: OrderTables, o: Id, to: SagaState): Result<OrderTables> {
    if o !in t.sagas then Err(NotFound)
    else if !CanTransition(t.sagas[o], to) then Err(Conflict)
    else Ok(t.(sagas := t.sagas[o := to]))
  }

  function UpdateStatus(t: OrderTables, o: Id, status: Status, expected: nat): Result<OrderTables> {
    if o !in t.orders || t.orders[o].version != expected then Err(Conflict)
    else Ok(t.(orders := t.orders[o := t.orders[o].(status := status, version := expected + 1)]))
  }

  // Runs an action on the copy of the order the handler read, possibly long ago.
  function ApplyTransition(t: OrderTables, copy: Order, to: Status, kind: OrderEventKind): Result<OrderTables> {
    var ord :- ApplyAction(copy, to);
    var t' :- UpdateStatus(t, copy.id, ord.status, copy.version);
    Ok(Enqueue(t', EventOf(kind, ord)))
  }

  function MarkPendingTx(t: OrderTables, copy: Order): Result<OrderTables> {
    var t1 :- StartSaga(t, copy.id);
    var t2 :- MoveSaga(t1, copy.id, StockReserved);
    var t3 :- ApplyTransition(t2, copy, PendingPayment, OrderReadyForPayment);
    MoveSaga(t3, copy.id, AwaitingPayment)
  }

  function ConfirmTx(t: OrderTables, copy: Order): Result<OrderTables> {
    var t1 :- MoveSaga(t, copy.id, Paid);
    var t2 :- ApplyTransition(t1, copy, Confirmed, OrderConfirmed);
    MoveSaga(t2, copy.id, Completed)
  }

  function CompensateTx(t: OrderTables, o: Id): Result<OrderTables> {
    MoveSaga(t, o, Compensating)
  }

  // The closing transaction of a compensation: payment_failed or cancelled.
  function FinishTx(t: OrderTables, copy: Order, to: Status): Result<OrderTables> {
    var t1 :- ApplyTransition(t, copy, to, OrderCancelled);
    MoveSaga(t1, copy.id, Compensated)
  }

  // ---------- the transactions in closed form ----------

  // One order's row and saga rewritten and one event enqueued.
  function Put(t: OrderTables, ord: Order, saga: SagaState, e: OrderEvent): OrderTables {
    OrderTables(t.orders[ord.id := ord], t.sagas[ord.id := saga], t.outbox + [e])
  }

  predicate Current(t: OrderTables, copy: Order) {
    copy.id in t.orders && t.orders[copy.id].id == copy.id && t.orders[copy.id].version == copy.version
  }

  // The saga starts exactly once, on a pending order nobody changed since it was read.
  lemma {:induction false} MarkPendingExact(t: OrderTables, copy: Order)
    requires copy.id in t.orders ==> t.orders[copy.id].id == copy.id
    ensures MarkPendingTx(t, copy).Ok? <==> Current(t, copy) && copy.id !in t.sagas && copy.status == Pending
    ensures MarkPendingTx(t, copy).Ok? ==>
              MarkPendingTx(t, copy).value ==
              Put(t, t.orders[copy.id].(status := PendingPayment, version := copy.version + 1), AwaitingPayment,
                  EventOf(OrderReadyForPayment, copy.(status := PendingPayment)))
    ensures MarkPendingTx(t, copy).Err? ==>
              MarkPendingTx(t, copy).error ==
              if copy.id in t.sagas || copy.id !in t.orders then Constraint
              else if copy.status != Pending then AlreadyProcessed else Conflict
  {
    if MarkPendingTx(t, copy).Ok? {
      assert t.sagas[copy.id := Started][copy.id := StockReserved][copy.id := AwaitingPayment] ==
          t.sagas[copy.id := AwaitingPayment];
    }
  }

  // Confirmation needs a saga that never compensated and a copy still current.
  lemma {:induction false} ConfirmExact(t: OrderTables, copy: Order)
    requires copy.id in t.orders ==> t.orders[copy.id].id == copy.id
    ensures ConfirmTx(t, copy).Ok? <==>
            Current(t, copy) && copy.id in t.sagas && t.sagas[copy.id] in {AwaitingPayment, Paid}
                && copy.status == PendingPayment
    ensures ConfirmTx(t, copy).Ok? ==>
              ConfirmTx(t, copy).value ==
              Put(t, t.orders[copy.id].(status := Confirmed, version := copy.version + 1), Completed,
                  EventOf(OrderConfirmed, copy.(status := Confirmed)))
    ensures ConfirmTx(t, copy).Err? ==>
              ConfirmTx(t, copy).error ==
              if copy.id !in t.sagas then NotFound
              else if t.sagas[copy.id] in {AwaitingPayment, Paid} && copy.status != PendingPayment then AlreadyProcessed
              else Conflict
  {
    if ConfirmTx(t, copy).Ok? {
      assert t.sagas[copy.id := Paid][copy.id := Completed] == t.sagas[copy.id := Completed];
    }
  }

  lemma {:induction false} CompensateExact(t: OrderTables, o: Id)
    ensures CompensateTx(t, o).Ok?
            <==> o in t.sagas && t.sagas[o] in {StockReserved, AwaitingPayment, Paid, Compensating}
    ensures CompensateTx(t, o).Ok? ==> CompensateTx(t, o).value == t.(sagas := t.sagas[o := Compensating])
    ensures CompensateTx(t, o).Err? ==> CompensateTx(t, o).error == if o !in t.sagas then NotFound else Conflict
  {
  }

  // A compensation closes only behind a saga already compensating.
  lemma {:induction false} FinishExact(t: OrderTables, copy: Order, to: Status)
    requires copy.id in t.orders ==> t.orders[copy.id].id == copy.id
    requires to == Status.PaymentFailed || to == Cancelled
    ensures FinishTx(t, copy, to).Ok? <==>
            && Current(t, copy) && copy.id in t.sagas && t.sagas[copy.id] in {Compensating, Compensated}
            && (copy.status == PendingPayment || (to == Cancelled && copy.status == Pending))
    ensures FinishTx(t, copy, to).Ok? ==>
              FinishTx(t, copy, to).value ==
              Put(t, t.orders[copy.id].(status := to, version := copy.version + 1), Compensated,
                  EventOf(OrderCancelled, copy.(status := to)))
    ensures FinishTx(t, copy, to).Err? ==>
              FinishTx(t, copy, to).error ==
              if copy.status != PendingPayment && !(to == Cancelled && copy.status == Pending) then AlreadyProcessed
              else if Current(t, copy) && copy.id !in t.sagas then NotFound else Conflict
  {
  }

  // ---------- order totals ----------

  predicate ValidLine(l: Line) {
    l.product != NIL && |l.name| > 0 && l.quantity > 0 && l.unitPrice >= 0
  }

  predicate ValidLines(lines: seq<Line>) {
    forall i | 0 <= i < |lines| :: ValidLine(lines[i])
  }

  function Priced(lines: seq<Line>): (r: seq<Line>)
    ensures |r| == |lines|
  {
    seq(|lines|, i requires 0 <= i < |lines| => lines[i].(total := Wrap64(lines[i].unitPrice * lines[i].quantity)))
  }

  // The running 64-bit total after n lines.
  function RunningTotal(lines: seq<Line>, n: nat): int
    requires n <= |lines|
  {
    if n == 0 then 0 else Wrap64(RunningTotal(lines, n - 1) + Wrap64(lines[n - 1].unitPrice * lines[n - 1].quantity))
  }

  function TrueTotal(lines: seq<Line>, n: nat): int
    requires n <= |lines|
  {
    if n == 0 then 0 else TrueTotal(lines, n - 1) + lines[n - 1].unitPrice * lines[n - 1].quantity
  }

  // The sum of the lines' stored totals.
  function LineSum(lines: seq<Line>): int {
    if |lines| == 0 then 0 else LineSum(lines[..|lines| - 1]) + lines[|lines| - 1].total
  }

  // Every line is worth its price times its quantity, and the order the sum of its lines, in 64 bits.
  predicate Billed(ord: Order) {
    && ord.total == Wrap64(LineSum(ord.lines))
    && forall i | 0 <= i < |ord.lines| ::
         ord.lines[i].quantity > 0 && ord.lines[i].total == Wrap64(ord.lines[i].unitPrice * ord.lines[i].quantity)
  }

  // A new order is pending, at version 1; its id is the fresh one drawn for it.
  method NewOrder(id: Id, customer: Id, lines: seq<Line>, currency: string) returns (r: Result<Order>)
    ensures r.Ok? <==> customer != NIL && |lines| > 0 && |currency| > 0 && ValidLines(lines)
    ensures r.Ok? ==> r.value == Order(id, customer, Pending, Wrap64(TrueTotal(lines, |lines|)), currency,
            Priced(lines), 1)
    ensures r.Ok? ==>
              && |r.value.lines| == |lines| && Billed(r.value)
              && forall i | 0 <= i < |lines| ::
                   r.value.lines[i] == lines[i].(total := Wrap64(lines[i].unitPrice * lines[i].quantity))
    ensures r.Err? ==> r == Err(Validation)
  {
    if customer == NIL || |lines| == 0 || |currency| == 0 {
      return Err(Validation);
    }
    var priced: seq<Line>, total := [], 0;
    for i := 0 to |lines|
      invariant ValidLines(lines[..i])
      invariant priced == Priced(lines[..i]) && total == RunningTotal(lines, i)
    {
      var line := lines[i];
      if line.product == NIL || |line.name| == 0 || line.quantity <= 0 || line.unitPrice < 0 {
        return Err(Validation);
      }
      var lineTotal := Wrap64(line.unitPrice * line.quantity);
      priced := priced + [line.(total := lineTotal)];
      total := Wrap64(total + lineTotal);
    }
    assert lines[..|lines|] == lines;
    RunningIsWrapped(lines, |lines|);
    RunningIsLineSum(lines, |lines|);
    r := Ok(Order(id, customer, Pending, total, currency, priced, 1));
  }

  lemma {:induction false} WrapAdds(a: int, b: int)
    ensures Wrap64(Wrap64(a) + Wrap64(b)) == Wrap64(a + b)
  {
    var qa, qb := (a + MAX_INT64 + 1) / TWO_64, (b + MAX_INT64 + 1) / TWO_64;
    assert Wrap64(a) == a - qa * TWO_64 && Wrap64(b) == b - qb * TWO_64;
    WrapShift(a + b, qa + qb);
  }

  lemma {:induction false} WrapShift(x: int, k: int)
    ensures Wrap64(x - k * TWO_64) == Wrap64(x)
  {
    var y := x + MAX_INT64 + 1;
    var q, r := y / TWO_64, y % TWO_64;
    assert y - k * TWO_64 == (q - k) * TWO_64 + r;
  }

  // Wrapping at every addition is wrapping once at the end.
  lemma {:induction false} RunningIsWrapped(lines: seq<Line>, n: nat)
    requires n <= |lines|
    ensures RunningTotal(lines, n) == Wrap64(TrueTotal(lines, n))
  {
    if n > 0 {
      RunningIsWrapped(lines, n - 1);
      WrapAdds(TrueTotal(lines, n - 1), lines[n - 1].unitPrice * lines[n - 1].quantity);
    }
  }

  // So is adding up the lines' own totals, each of which was wrapped.
  lemma {:induction false} RunningIsLineSum(lines: seq<Line>, n: nat)
    requires n <= |lines|
    ensures RunningTotal(lines, n) == Wrap64(LineSum(Priced(lines[..n])))
  {
    if n > 0 {
      var priced := Priced(lines[..n]);
      RunningIsLineSum(lines, n - 1);
      assert priced[..n - 1] == Priced(lines[..n - 1]);
      WrapAdds(LineSum(priced[..n - 1]), priced[n - 1].total);
    }
  }

  lemma {:induction false} TrueTotalNonNegative(lines: seq<Line>, n: nat)
    requires n <= |lines| && ValidLines(lines)
    ensures TrueTotal(lines, n) >= 0
  {
    if n > 0 {
      TrueTotalNonNegative(lines, n - 1);
      assert ValidLine(lines[n - 1]);
      assert lines[n - 1].unitPrice * lines[n - 1].quantity >= 0;
    }
  }

  // The stored total is the sum of the line prices if and only if that sum fits in 64 bits.
  lemma {:induction false} TotalExactIff(lines: seq<Line>)
    requires ValidLines(lines)
    ensures RunningTotal(lines, |lines|) == TrueTotal(lines, |lines|) <==> TrueTotal(lines, |lines|) <= MAX_INT64
  {
    RunningIsWrapped(lines, |lines|);
    TrueTotalNonNegative(lines, |lines|);
  }
}
