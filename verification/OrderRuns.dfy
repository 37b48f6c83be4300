/** The operations of the order service as functions of the tables, and what their answers mean. */
module OrderRuns {
  import opened Common
  import opened Orders
  import opened StockLedger
  import opened ReserveLaws
  import opened StockFrames
  import opened SagaSystem
  import opened HeldLines
  import opened EventStore
  import PaymentService
  import P = Payment

  // What an operation leaves behind.
  datatype After = After(tables: OrderTables, ledger: Ledger, outcome: Outcome)

  // ---------- the operations as functions of the tables ----------

  function Applied(tx: Result<OrderTables>, before: OrderTables): (OrderTables, Outcome) {
    match tx case Err(e) => (before, Failed(e)) case Ok(t) => (t, Done)
  }

  function MarkPendingRun(t: OrderTables, o: Id): (OrderTables, Outcome) {
    if o !in t.orders then (t, Failed(NotFound)) else Applied(MarkPendingTx(t, t.orders[o]), t)
  }

  function ConfirmRun(t: OrderTables, o: Id): (OrderTables, Outcome) {
    if o !in t.orders then (t, Failed(NotFound))
    else if IsTerminal(t.orders[o].status) then (t, Done)
    else Applied(ConfirmTx(t, t.orders[o]), t)
  }

  // From the compensating checkpoint on: release, then close. A failure keeps the checkpoint.
  function UndoRun(t: OrderTables, l: Ledger, copy: Order, release: Call, to: Status): After {
    var l' := ReleasedBy(l, copy.id, release);
    if release != Answered then After(t, l', Failed(Unavailable))
    else
      var (t', r) := Applied(FinishTx(t, copy, to), t);
      After(t', l', r)
  }

  function FailRun(t: OrderTables, l: Ledger, o: Id, release: Call): After {
    if o !in t.orders then After(t, l, Failed(NotFound))
    else if IsTerminal(t.orders[o].status) then After(t, l, Done)
    else
      match CompensateTx(t, o)
      case Err(e) => After(t, l, Failed(e))
      case Ok(t1) => UndoRun(t1, l, t.orders[o], release, Status.PaymentFailed)
  }

  function CancelRun(t: OrderTables, l: Ledger, streams: Streams, o: Id, payment: Id, reason: string, refund: Call,
                     release: Call): (After, Streams) {
    if o !in t.orders then (After(t, l, Failed(NotFound)), streams)
    else if IsTerminal(t.orders[o].status) then (After(t, l, Done), streams)
    else
      match CompensateTx(t, o)
      case Err(e) => (After(t, l, Failed(e)), streams)
      case Ok(t1) =>
        var (streams', r) := if refund == Lost then (streams, Failed(Unavailable))
            else PaymentService.RefundPayment(streams, payment, reason);
        if r.Failed? then (After(t1, l, r), streams')
        else if refund != Answered then (After(t1, l, Failed(Unavailable)), streams')
        else (UndoRun(t1, l, t.orders[o], release, Cancelled), streams')
  }

  // A payment event in the consumer's transaction. A failure rolls the mark back with it.
  function HandleRun(t: OrderTables, l: Ledger, marks: set<Id>, event: Id, kind: PayEventKind, o: Id,
                     release: Call): (After, set<Id>) {
    if (kind != EvProcessed && kind != EvFailed) || event in marks then (After(t, l, Done), marks)
    else
      var a := if kind == EvFailed then FailRun(t, l, o, release)
               else var (t', r) := ConfirmRun(t, o); After(t', l, r);
      (a, if a.outcome == Done then marks + {event} else marks)
  }

  // From the reservation on: save and mark, or release.
  function StoreRun(t: OrderTables, l: Ledger, ord: Order, save: Call, undo: Call): After {
    var saved := if save == Lost then Err(Error.Unavailable) else SaveOrderTx(t, ord);
    match saved
    case Err(e) => After(t, ReleasedBy(l, ord.id, undo), Failed(e))
    case Ok(t') =>
      if save == Unanswered then After(t', ReleasedBy(l, ord.id, undo), Failed(Unavailable))
      else var (t2, r) := MarkPendingRun(t', ord.id); After(t2, l, r)
  }

  // Create, for an order built by NewOrder.
  function CreateRun(t: OrderTables, l: Ledger, ord: Order, reserve: Call, save: Call, undo: Call): After {
    if reserve == Lost then After(t, l, Failed(Unavailable))
    else
      match ReserveOp(l, ord.id, ItemsOf(ord.lines))
      case Err(e) => After(t, l, Failed(e))
      case Ok(l') =>
        if reserve != Answered then After(t, l', Failed(Unavailable)) else StoreRun(t, l', ord, save, undo)
  }

  // ---------- what the answers mean ----------

  // The primary key of the orders table.
  predicate KeyedTables(t: OrderTables) {
    forall o | o in t.orders :: t.orders[o].id == o
  }

  predicate Stands(t: OrderTables, o: Id, status: Status, saga: SagaState) {
    && o in t.orders && t.orders[o].status == status && o in t.sagas && t.sagas[o] == saga
  }

  predicate WasTerminal(t: OrderTables, o: Id) {
    o in t.orders && t.orders[o].status in {Confirmed, Status.PaymentFailed, Cancelled}
  }

  predicate NothingReserved(l: Ledger, o: Id) {
    forall k | 0 <= k < |l.rows| && l.rows[k].order == o :: l.rows[k].status != Reserved
  }

  // The saga of an order that may be given up.
  predicate MayCompensate(t: OrderTables, o: Id) {
    o in t.sagas && t.sagas[o] in {StockReserved, AwaitingPayment, Paid, Compensating}
  }

  // The answer of marking an order ready: done exactly when it was pending without a saga.
  lemma {:induction false} MarkPendingAnswer(t: OrderTables, o: Id)
    requires KeyedTables(t)
    ensures var (t', r) := MarkPendingRun(t, o);
            && (r == Done <==> o in t.orders && t.orders[o].status == Pending && o !in t.sagas)
            && (r == Done ==> Stands(t', o, PendingPayment, AwaitingPayment))
            && (r.Failed? ==> t' == t)
            && (r == Failed(NotFound) <==> o !in t.orders)
            && (r == Failed(Constraint) <==> o in t.orders && o in t.sagas)
            && (r.Failed? ==> r.error in {NotFound, Constraint, AlreadyProcessed})
  {
    if o in t.orders {
      MarkPendingExact(t, t.orders[o]);
    }
  }

  lemma {:induction false} ConfirmAnswer(t: OrderTables, o: Id)
    requires KeyedTables(t)
    ensures var (t', r) := ConfirmRun(t, o);
            && (r == Done <==> WasTerminal(t, o) || Stands(t', o, Confirmed, Completed))
            && (WasTerminal(t, o) || r.Failed? ==> t' == t)
            && (r == Failed(NotFound) <==> o !in t.orders || (!WasTerminal(t, o) && o !in t.sagas))
            && (r == Failed(Conflict) <==>
                  o in t.orders && !WasTerminal(t, o) && o in t.sagas && t.sagas[o] !in {AwaitingPayment, Paid})
            && (r.Failed? ==> r.error in {NotFound, Conflict, AlreadyProcessed})
  {
    if o in t.orders {
      ConfirmExact(t, t.orders[o]);
    }
  }

  lemma {:induction false} ReleasedRows(l: Ledger, o: Id)
    ensures NothingReserved(ReleaseOp(l, o), o)
  {
  }

  // The answer of the closing part: done exactly when its release was answered and the order can be closed.
  lemma {:induction false} UndoAnswer(t: OrderTables, l: Ledger, copy: Order, release: Call, to: Status)
    requires KeyedTables(t) && copy.id in t.orders && t.orders[copy.id] == copy && !IsTerminal(copy.status)
    requires copy.id in t.sagas && t.sagas[copy.id] == Compensating && (to == Status.PaymentFailed || to == Cancelled)
    ensures var a := UndoRun(t, l, copy, release, to);
            && (a.outcome == Done <==> Stands(a.tables, copy.id, to, Compensated) && NothingReserved(a.ledger, copy.id))
            && (a.outcome == Done <==>
                  release == Answered && (copy.status == PendingPayment || (to == Cancelled && copy.status == Pending)))
            && (a.outcome.Failed? ==> a.tables == t)
            && a.ledger == (if release == Lost then l else ReleaseOp(l, copy.id))
            && (a.outcome == Failed(Unavailable) <==> release != Answered)
            && (a.outcome.Failed? ==> a.outcome.error in {Unavailable, AlreadyProcessed})
  {
    FinishExact(t, copy, to);
    ReleasedRows(l, copy.id);
  }

  // FailPayment answers done if and only if the order was closed before, or is now payment_failed with its
  // saga compensated and nothing reserved.
  lemma {:induction false} FailAnswer(t: OrderTables, l: Ledger, o: Id, release: Call)
    requires KeyedTables(t)
    ensures var a := FailRun(t, l, o, release);
            && (a.outcome == Done <==>
                  WasTerminal(t, o)
                  || (Stands(a.tables, o, Status.PaymentFailed, Compensated) && NothingReserved(a.ledger, o)))
            && (WasTerminal(t, o) ==> a.tables == t && a.ledger == l)
            && (o in t.orders && !WasTerminal(t, o) && MayCompensate(t, o) && release != Lost ==>
                  NothingReserved(a.ledger, o))
            && (a.outcome == Failed(NotFound) <==> o !in t.orders || (!WasTerminal(t, o) && o !in t.sagas))
            && (a.outcome == Failed(Conflict) <==>
                  o in t.orders && !WasTerminal(t, o) && o in t.sagas && !MayCompensate(t, o))
            && (a.outcome == Failed(Unavailable) <==>
                  o in t.orders && !WasTerminal(t, o) && MayCompensate(t, o) && release != Answered)
            && (a.outcome.Failed? ==> a.outcome.error in {NotFound, Conflict, Unavailable, AlreadyProcessed})
  {
    CompensateExact(t, o);
    if o in t.orders && !IsTerminal(t.orders[o].status) && MayCompensate(t, o) {
      UndoAnswer(CompensateTx(t, o).value, l, t.orders[o], release, Status.PaymentFailed);
    }
  }

  predicate IsRefunded(streams: Streams, payment: Id) {
    payment in streams && P.WasRefunded(streams[payment])
  }

  // Whether the payment can be refunded, and is known to exist.
  predicate Known(streams: Streams, payment: Id) {
    payment != NIL && payment in streams
  }

  predicate Refundable(streams: Streams, payment: Id, reason: string) {
    Known(streams, payment) && P.Captured(streams[payment]) && reason != ""
  }

  // FailAfterPayment answers done if and only if the order was closed before, or is now cancelled with its
  // saga compensated, nothing reserved and the payment refunded.
  lemma {:induction false} CancelAnswer(t: OrderTables, l: Ledger, streams: Streams, o: Id, payment: Id,
                                        reason: string, refund: Call, release: Call)
    requires KeyedTables(t) && StreamsLegal(streams)
    ensures var (a, streams') := CancelRun(t, l, streams, o, payment, reason, refund, release);
            && (a.outcome == Done <==>
                  WasTerminal(t, o)
                  || (Stands(a.tables, o, Cancelled, Compensated) && NothingReserved(a.ledger, o)
                      && IsRefunded(streams', payment)))
            && (WasTerminal(t, o) ==> a.tables == t && a.ledger == l && streams' == streams)
  {
    CompensateExact(t, o);
    PaymentService.RefundAnswer(streams, payment, reason);
    if o in t.orders && !IsTerminal(t.orders[o].status) && MayCompensate(t, o) {
      UndoAnswer(CompensateTx(t, o).value, l, t.orders[o], release, Cancelled);
    }
  }

  // Every other end is an error, also a refund or a release that was executed and not heard of; and what
  // was executed shows.
  lemma {:induction false} CancelEffects(t: OrderTables, l: Ledger, streams: Streams, o: Id, payment: Id,
                                         reason: string, refund: Call, release: Call)
    requires KeyedTables(t) && StreamsLegal(streams)
    requires o in t.orders && !WasTerminal(t, o) && MayCompensate(t, o)
    ensures var (a, streams') := CancelRun(t, l, streams, o, payment, reason, refund, release);
            && (refund != Answered || release != Answered ==> a.outcome.Failed?)
            && (refund != Lost && Refundable(streams, payment, reason) ==> IsRefunded(streams', payment))
            && (refund == Answered && Refundable(streams, payment, reason) && release != Lost ==>
                  NothingReserved(a.ledger, o))
  {
    CompensateExact(t, o);
    PaymentService.RefundAnswer(streams, payment, reason);
    UndoAnswer(CompensateTx(t, o).value, l, t.orders[o], release, Cancelled);
  }

  // Why FailAfterPayment failed: the first of its conditions that does not hold.
  lemma {:induction false} CancelError(t: OrderTables, l: Ledger, streams: Streams, o: Id, payment: Id,
                                       reason: string, refund: Call, release: Call)
    requires KeyedTables(t) && StreamsLegal(streams)
    ensures var r := CancelRun(t, l, streams, o, payment, reason, refund, release).0.outcome;
            r.Failed? ==>
              if o !in t.orders || o !in t.sagas then r.error == NotFound
              else if !MayCompensate(t, o) then r.error == Conflict
              else if refund == Lost then r.error == Unavailable
              else if !Known(streams, payment) then r.error == NotFound
              else if !P.Captured(streams[payment]) then r.error == Conflict
              else if reason == "" then r.error == Validation
              else if refund != Answered || release != Answered then r.error == Unavailable
              else r.error == AlreadyProcessed
  {
    CompensateExact(t, o);
    PaymentService.RefundAnswer(streams, payment, reason);
    if o in t.orders && !IsTerminal(t.orders[o].status) && MayCompensate(t, o) {
      UndoAnswer(CompensateTx(t, o).value, l, t.orders[o], release, Cancelled);
    }
  }

  // ---------- create ----------

  // A new order the orders table takes.
  predicate Insertable(t: OrderTables, ord: Order) {
    && ord.id !in t.orders && ord.total >= 0
    && forall i | 0 <= i < |ord.lines| :: ord.lines[i].total >= 0
  }

  // And for which no saga was ever started.
  predicate Storable(t: OrderTables, ord: Order) {
    Insertable(t, ord) && ord.id !in t.sagas
  }

  // The order is stored, awaits its payment, and was announced as created and as ready.
  predicate Placed(t: OrderTables, t': OrderTables, ord: Order) {
    && t'.orders == t.orders[ord.id := ord.(status := PendingPayment, version := 2)]
    && t'.sagas == t.sagas[ord.id := AwaitingPayment]
    && t'.outbox == t.outbox + [EventAt(OrderCreated, ord, Pending), EventAt(OrderReadyForPayment, ord, PendingPayment)]
  }

  // A new order as its handler built it, for whose id the inventory has no rows.
  predicate Creatable(l: Ledger, ord: Order) {
    && CountersOk(l) && NoRows(l, ord.id) && ord.id != NIL && ord.status == Pending && ord.version == 1
    && |ord.lines| > 0 && ValidLines(ord.lines)
  }

  lemma {:induction false} StoredOk(t: OrderTables, ord: Order)
    requires ValidLines(ord.lines)
    ensures SaveOrderTx(t, ord).Ok? <==> Insertable(t, ord)
    ensures SaveOrderTx(t, ord).Err? ==> SaveOrderTx(t, ord) == Err(Constraint)
    ensures SaveOrderTx(t, ord).Ok? ==>
              SaveOrderTx(t, ord).value ==
              OrderTables(t.orders[ord.id := ord], t.sagas, t.outbox + [EventAt(OrderCreated, ord, ord.status)])
  {
    SaveOrderExact(t, ord);
    forall i | 0 <= i < |ord.lines| ensures ord.lines[i].quantity > 0 && ord.lines[i].unitPrice >= 0 {
      assert ValidLine(ord.lines[i]);
    }
  }

  lemma {:induction false} PlacedIff(t: OrderTables, ord: Order)
    requires ord.status == Pending && ord.version == 1 && ValidLines(ord.lines) && SaveOrderTx(t, ord).Ok?
    ensures var (t', r) := MarkPendingRun(SaveOrderTx(t, ord).value, ord.id);
            && (r == Done <==> Storable(t, ord)) && (r == Done ==> Placed(t, t', ord))
  {
    StoredOk(t, ord);
    var t1 := SaveOrderTx(t, ord).value;
    MarkPendingExact(t1, ord);
    assert t.orders[ord.id := ord][ord.id := ord.(status := PendingPayment, version := 2)] ==
           t.orders[ord.id := ord.(status := PendingPayment, version := 2)];
  }

  // Create answers done if and only if every call was answered, every product is in stock and the tables
  // take the order; and then the order awaits its payment and each product's available counter is lower by
  // the quantity ordered.
  lemma {:induction false} CreateDone(t: OrderTables, l: Ledger, ord: Order, reserve: Call, save: Call, undo: Call)
    requires Creatable(l, ord)
    ensures var a := CreateRun(t, l, ord, reserve, save, undo);
            && (a.outcome == Done <==>
                  reserve == Answered && save == Answered && AllInStock(l, ord.lines) && Storable(t, ord))
            && (a.outcome == Done ==>
                  Placed(t, a.tables, ord) && LinesTaken(l, a.ledger, ord.lines)
                  && HoldsLines(a.ledger.rows, ord, Reserved))
  {
    LinesAccepted(l, ord.id, ord.lines);
    StoredOk(t, ord);
    if ReserveOp(l, ord.id, ItemsOf(ord.lines)).Ok? {
      LinesReserved(l, ord.id, ord.lines, ReserveOp(l, ord.id, ItemsOf(ord.lines)).value);
      LinesHeld(l, ord, ReserveOp(l, ord.id, ItemsOf(ord.lines)).value);
    }
    if SaveOrderTx(t, ord).Ok? {
      PlacedIff(t, ord);
    }
  }

  // Reserving and releasing for an order without rows leaves every counter as it was.
  lemma {:induction false} ReservedBack(l: Ledger, ord: Order)
    requires Creatable(l, ord) && ReserveOp(l, ord.id, ItemsOf(ord.lines)).Ok?
    ensures var l' := ReleaseOp(ReserveOp(l, ord.id, ItemsOf(ord.lines)).value, ord.id);
            l'.stock == l.stock && NothingReserved(l', ord.id)
  {
    NoRowsOf(l.rows, ord.id);
    ReleaseUndoesReserve(l, ord.id, ItemsOf(ord.lines));
    ReleasedRows(ReserveOp(l, ord.id, ItemsOf(ord.lines)).value, ord.id);
  }

  lemma {:induction false} NoRowsOf(rows: seq<Row>, o: Id)
    requires forall k | 0 <= k < |rows| :: rows[k].order != o
    ensures RowsOf(rows, o) == []
  {
    if |rows| > 0 {
      NoRowsOf(rows[..|rows| - 1], o);
    }
  }

  // When Create fails: a product that is short decides the error and nothing has changed; and when the save
  // failed, or was not heard of, and the release is executed, no stock stays behind.
  lemma {:induction false} CreateFailed(t: OrderTables, l: Ledger, ord: Order, reserve: Call, save: Call, undo: Call)
    requires Creatable(l, ord)
    ensures var a := CreateRun(t, l, ord, reserve, save, undo);
            && (reserve == Lost ==> a == After(t, l, Failed(Unavailable)))
            && (reserve != Lost && !AllInStock(l, ord.lines) ==>
                  && a.outcome.Failed? && a == After(t, l, a.outcome)
                  && exists i: nat :: FirstShort(l, ord.lines, i, a.outcome.error))
            && (reserve != Lost && AllInStock(l, ord.lines) && a.outcome.Failed? ==>
                  a.outcome.error ==
                  if reserve == Answered && (save == Answered || (save == Unanswered && !Insertable(t, ord)))
                  then Constraint else Unavailable)
            && (reserve == Answered && AllInStock(l, ord.lines) && (save != Answered || !Insertable(t, ord))
                && undo != Lost ==>
                  a.ledger.stock == l.stock && NothingReserved(a.ledger, ord.id))
            && (save == Lost || !Insertable(t, ord) ==> a.tables == t)
            && (reserve == Unanswered && AllInStock(l, ord.lines) ==>
                  a.tables == t && LinesTaken(l, a.ledger, ord.lines) && HoldsLines(a.ledger.rows, ord, Reserved))
            && (reserve == Answered && save == Unanswered && AllInStock(l, ord.lines) && Insertable(t, ord) ==>
                  ord.id in a.tables.orders && a.tables.orders[ord.id] == ord)
  {
    LinesAccepted(l, ord.id, ord.lines);
    StoredOk(t, ord);
    if ReserveOp(l, ord.id, ItemsOf(ord.lines)).Ok? {
      ReservedBack(l, ord);
      LinesReserved(l, ord.id, ord.lines, ReserveOp(l, ord.id, ItemsOf(ord.lines)).value);
      LinesHeld(l, ord, ReserveOp(l, ord.id, ItemsOf(ord.lines)).value);
    }
    if SaveOrderTx(t, ord).Ok? {
      PlacedIff(t, ord);
      MarkPendingExact(SaveOrderTx(t, ord).value, ord);
    }
  }

  // The order a request asks for.
  function Asked(id: Id, customer: Id, lines: seq<Line>, currency: string): Order {
    Order(id, customer, Pending, Wrap64(TrueTotal(lines, |lines|)), if |currency| == 0 then "USD" else currency,
        Priced(lines), 1)
  }

  // Create, for any request.
  function CreateFor(t: OrderTables, l: Ledger, id: Id, customer: Id, lines: seq<Line>, currency: string,
                     reserve: Call, save: Call, undo: Call): After {
    if customer == NIL || |lines| == 0 || !ValidLines(lines) then After(t, l, Failed(Validation))
    else CreateRun(t, l, Asked(id, customer, lines, currency), reserve, save, undo)
  }

  // What the answer to a request says, in the request's own terms: done exactly when it was valid, every
  // call was answered, its products were in stock and its order could be stored; and then that was done.
  ghost predicate CreateTold(t: OrderTables, l: Ledger, a: After, id: Id, customer: Id, lines: seq<Line>,
                             currency: string, reserve: Call, save: Call) {
    var ord := Asked(id, customer, lines, currency);
    && (a.outcome == Done <==>
          && customer != NIL && lines != []
          && (forall i | 0 <= i < |lines| ::
                lines[i].product != NIL && lines[i].name != "" && lines[i].quantity >= 1 && lines[i].unitPrice >= 0)
          && reserve == Answered && save == Answered && AllInStock(l, lines) && Storable(t, ord))
    && (a.outcome == Done ==>
          && Placed(t, a.tables, ord) && LinesTaken(l, a.ledger, lines) && HoldsLines(a.ledger.rows, ord, Reserved)
          && ord.customer == customer && ord.currency == (if currency == "" then "USD" else currency)
          && ord.total == Wrap64(LineSum(ord.lines)) && |ord.lines| == |lines|
          && forall i | 0 <= i < |lines| ::
               ord.lines[i] == lines[i].(total := Wrap64(lines[i].unitPrice * lines[i].quantity)))
  }

  lemma {:induction false} PricedFirst(lines: seq<Line>, i: nat)
    ensures FirstOfProduct(Priced(lines), i) <==> FirstOfProduct(lines, i)
  {
    if i < |lines| && FirstOfProduct(Priced(lines), i) {
      forall j | 0 <= j < i ensures lines[j].product != lines[i].product {
        assert Priced(lines)[j].product == lines[j].product;
      }
    }
  }

  lemma {:induction false} PricedOrdered(lines: seq<Line>, p: Id)
    ensures Ordered(Priced(lines), p) <==> Ordered(lines, p)
  {
    if i :| 0 <= i < |lines| && lines[i].product == p {
      assert Priced(lines)[i].product == p;
    }
  }

  lemma {:induction false} PricedInStock(l: Ledger, lines: seq<Line>)
    ensures AllInStock(l, Priced(lines)) <==> AllInStock(l, lines)
    ensures ValidLines(Priced(lines)) <==> ValidLines(lines)
  {
    forall i: nat ensures FirstOfProduct(Priced(lines), i) <==> FirstOfProduct(lines, i) {
      PricedFirst(lines, i);
    }
    assert forall i | 0 <= i < |lines| :: InStock(l, Priced(lines)[i]) <==> InStock(l, lines[i]);
    assert forall i | 0 <= i < |lines| :: ValidLine(Priced(lines)[i]) <==> ValidLine(lines[i]);
  }

  lemma {:induction false} PricedTaken(l: Ledger, l': Ledger, lines: seq<Line>)
    requires LinesTaken(l, l', Priced(lines))
    ensures LinesTaken(l, l', lines)
  {
    forall i: nat | FirstOfProduct(lines, i) ensures LineTaken(l, l', lines[i]) {
      PricedFirst(lines, i);
      assert LineTaken(l, l', Priced(lines)[i]);
    }
    forall p | p in l.stock && !Ordered(lines, p) ensures l'.stock[p] == l.stock[p] {
      PricedOrdered(lines, p);
    }
  }

  lemma {:induction false} CreateTells(t: OrderTables, l: Ledger, init: map<Id, nat>, id: Id, customer: Id,
                                       lines: seq<Line>, currency: string, reserve: Call, save: Call, undo: Call)
    requires LedgerInv(l, init) && id != NIL && NoRows(l, id)
    ensures CreateTold(t, l, CreateFor(t, l, id, customer, lines, currency, reserve, save, undo), id, customer, lines,
                currency, reserve, save)
  {
    if customer != NIL && |lines| > 0 && ValidLines(lines) {
      assert forall p | p in l.stock :: Balanced(l, init, p);
      var ord := Asked(id, customer, lines, currency);
      var a := CreateRun(t, l, ord, reserve, save, undo);
      PricedInStock(l, lines);
      CreateDone(t, l, ord, reserve, save, undo);
      RunningIsWrapped(lines, |lines|);
      RunningIsLineSum(lines, |lines|);
      assert lines[..|lines|] == lines;
      if a.outcome == Done {
        PricedTaken(l, a.ledger, lines);
      }
    }
  }
}
