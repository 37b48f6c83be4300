/** What every reachable state of the saga system satisfies, order by order. */
module SagaInvariant {
  import opened Common
  import opened Orders
  import opened StockLedger
  import opened ReserveLaws
  import opened EventStore
  import opened PaymentService
  import opened SagaSystem
  import P = Payment

  // ---------- one order's share of the state ----------

  datatype Pay = Pay(id: Id, es: seq<P.Event>)

  datatype View = View(
    order: Option<Order>, saga: Option<SagaState>, events: seq<OrderEvent>,
    rows: seq<Row>, releases: nat, sales: nat,
    pay: Option<Pay>, msgs: seq<PayMessage>,
    create: Option<Create>, used: bool, releasing: bool, refunding: bool)

  function Lookup<T>(m: map<Id, T>, o: Id): Option<T> {
    if o in m then Some(m[o]) else None
  }

  // The orders-topic outbox rows of one order.
  function EventsFor(outbox: seq<OrderEvent>, o: Id): seq<OrderEvent> {
    if |outbox| == 0 then []
    else EventsFor(outbox[..|outbox| - 1], o) + (if outbox[|outbox| - 1].order == o then [outbox[|outbox| - 1]] else [])
  }

  // The payments-topic outbox rows of one order.
  function MessagesFor(outbox: seq<PayMessage>, o: Id): seq<PayMessage> {
    if |outbox| == 0 then []
    else MessagesFor(outbox[..|outbox| - 1], o) + (if outbox[|outbox| - 1].order == o then [outbox[|outbox| - 1]]
      else [])
  }

  ghost function PayOf(streams: Streams, o: Id): Option<Pay> {
    if HasPayment(streams, o) then
      var id :| id in streams && BelongsTo(streams[id], o);
      Some(Pay(id, streams[id]))
    else None
  }

  ghost function ViewOf(s: Sys, o: Id): View {
    var pay := PayOf(s.streams, o);
    View(Lookup(s.db.orders, o), Lookup(s.db.sagas, o), EventsFor(s.db.outbox, o),
         RowsOf(s.ledger.rows, o), MoveCount(s.ledger.moves, o, Release), MoveCount(s.ledger.moves, o, Sale),
         pay, MessagesFor(s.payOutbox, o),
         Lookup(s.creates, o), o in s.used, o in s.releasing, pay.Some? && pay.value.id in s.refunding)
  }

  // ---------- the invariant of one order ----------

  // Where the saga of an order may stand.
  predicate PairOk(status: Status, saga: Option<SagaState>) {
    match status
    case Pending => saga == None
    case PendingPayment => saga == Some(AwaitingPayment) || saga == Some(Compensating)
    case Confirmed => saga == Some(Completed)
    case PaymentFailed => saga == Some(Compensated)
    case Cancelled => saga == Some(Compensated)
    case _ => false
  }

  function VersionOf(status: Status): nat {
    match status
    case Pending => 1
    case PendingPayment => 2
    case _ => 3
  }

  // The events an order has announced, given its status.
  function Announced(ord: Order): seq<OrderEvent> {
    var created := EventOf(OrderCreated, ord.(status := Pending));
    var ready := EventOf(OrderReadyForPayment, ord.(status := PendingPayment));
    match ord.status
    case Pending => [created]
    case PendingPayment => [created, ready]
    case Confirmed => [created, ready, EventOf(OrderConfirmed, ord)]
    case _ => [created, ready, EventOf(OrderCancelled, ord)]
  }

  predicate Undone(saga: Option<SagaState>) {
    saga == Some(Compensating) || saga == Some(Compensated)
  }

  // The stock an order of these lines holds.
  function HeldItems(ord: Order): seq<Item> {
    Lines(ord.id, ItemsOf(ord.lines))
  }

  predicate Holds(v: View, ord: Order, st: RowStatus) {
    v.rows == NewRows(ord.id, HeldItems(ord), st)
  }

  predicate NoSale(v: View) { v.sales == 0 }
  predicate NoRelease(v: View) { v.releases == 0 && !v.releasing }

  predicate StockOk(v: View, ord: Order) {
    match ord.status
    case Pending =>
      NoSale(v) && (Holds(v, ord, Reserved) || Holds(v, ord, Released))
          && (v.create.Some? ==> Holds(v, ord, Reserved) && NoRelease(v))
    case PendingPayment =>
      && NoSale(v) && (Holds(v, ord, Reserved) || Holds(v, ord, Released))
      && (v.saga == Some(AwaitingPayment) ==> Holds(v, ord, Reserved) && NoRelease(v))
    case Confirmed => NoRelease(v) && (Holds(v, ord, Reserved) || Holds(v, ord, RowStatus.Committed))
    case _ => NoSale(v) && Holds(v, ord, Released)
  }

  predicate Charged2(es: seq<P.Event>) {
    |es| >= 2 && (es[1].PaymentProcessed? || es[1].PaymentDeclined?)
  }

  function KindOf(e: P.Event): PayEventKind {
    match e
    case PaymentInitiated(_, _, _, _, _) => EvInitiated
    case PaymentProcessed(_, _) => EvProcessed
    case PaymentDeclined(_, _) => EvFailed
    case PaymentRefunded(_, _, _) => EvRefunded
    case PaymentWithdrawn(_, _) => EvCancelled
  }

  // Every stored payment event was announced, in order, for this order and payment.
  predicate Told(msgs: seq<PayMessage>, pay: Pay, o: Id) {
    && |msgs| == |pay.es|
    && forall i | 0 <= i < |msgs| ::
         msgs[i].kind == KindOf(pay.es[i]) && msgs[i].payment == pay.id && msgs[i].order == o
  }

  predicate PaymentMatches(pay: Pay, ord: Order) {
    && P.Legal(pay.id, pay.es) && Charged2(pay.es)
    && pay.es[0].order == ord.id && pay.es[0].customer == ord.customer
    && pay.es[0].amount == ord.total && pay.es[0].currency == ord.currency
    && (pay.es[1].PaymentProcessed? ==> ord.total <= GATEWAY_MAX_CENTS)
  }

  predicate MoneyOk(v: View, ord: Order) {
    && (v.pay.None? ==> v.msgs == [])
    && (v.pay.Some? ==> PaymentMatches(v.pay.value, ord) && Told(v.msgs, v.pay.value, ord.id))
    && (v.pay.Some? && P.WasRefunded(v.pay.value.es) ==> Undone(v.saga))
    && (v.refunding ==> Undone(v.saga))
    && (Undone(v.saga) ==> v.pay.Some?)
    && (ord.status == Pending ==> v.pay.None?)
    && (ord.status == Confirmed ==> v.pay.Some? && P.Captured(v.pay.value.es))
    && (ord.status == Status.PaymentFailed ==> v.pay.Some? && P.TurnedDown(v.pay.value.es))
    && (ord.status == Cancelled ==> v.pay.Some? && P.WasRefunded(v.pay.value.es))
  }

  predicate CreateOk(v: View, ord: Order) {
    v.create.Some? ==>
      && ord.status == Pending
      && (v.create.value.Undoing? || v.create.value.Marking? || v.create.value == Copied(ord))
  }

  predicate SavedOk(o: Id, v: View, ord: Order) {
    && ord.id == o && o != NIL && ord.customer != NIL && |ord.currency| > 0 && |ord.lines| > 0 && ord.total >= 0
    && Billed(ord)
    && ord.version == VersionOf(ord.status)
    && PairOk(ord.status, v.saga)
    && v.events == Announced(ord)
    && v.used
    && CreateOk(v, ord) && StockOk(v, ord) && MoneyOk(v, ord)
  }

  predicate Untouched(v: View) {
    v.rows == [] && v.releases == 0 && v.sales == 0 && !v.releasing
  }

  predicate UnsavedOk(o: Id, v: View) {
    && v.saga == None && v.events == [] && v.pay == None && v.msgs == [] && !v.refunding
    && NoSale(v)
    && (forall i | 0 <= i < |v.rows| :: v.rows[i].status != RowStatus.Committed)
    && (!v.used ==> Untouched(v) && v.create.None?)
    && (match v.create
        case None => true
        case Some(c) =>
          && IsNew(c.order) && c.order.id == o
          && match c
             case Reserving(_) => Untouched(v)
             case Abandoned(_) => Untouched(v)
             case Saving(ord) => Holds(v, ord, Reserved) && NoRelease(v)
             case Undoing(ord) => Holds(v, ord, Reserved) && NoRelease(v)
             case _ => false)
  }

  predicate ViewOk(o: Id, v: View) {
    match v.order
    case None => UnsavedOk(o, v)
    case Some(ord) => SavedOk(o, v, ord)
  }

  // ---------- handlers in flight ----------

  // The order as a handler that started on it read it.
  function AsRead(ord: Order): Order {
    ord.(status := PendingPayment, version := 2)
  }

  predicate HandlerOk(v: View, x: Handler) {
    && v.order.Some? && x.copy == AsRead(v.order.value)
    && v.pay.Some? && v.pay.value.id == x.payment && Charged2(v.pay.value.es)
    && (x.at != ToConfirm && x.at != ToCompensate ==> Undone(v.saga))
    && (x.at == ToFinish ==> Holds(v, v.order.value, Released))
    && match x.kind
       case Confirming => x.at == ToConfirm && v.pay.value.es[1].PaymentProcessed?
       case Failing => x.at != ToConfirm && x.at != ToRefund && v.pay.value.es[1].PaymentDeclined?
       case Cancelling(_) =>
         && x.at != ToConfirm && x.event == None
         && (x.at == ToRelease || x.at == ToFinish ==> P.WasRefunded(v.pay.value.es))
  }

  // What other steps may do to an order a handler is working on.
  predicate Evolves(v: View, v': View) {
    && (v.order.Some? ==> v'.order.Some? && AsRead(v'.order.value) == AsRead(v.order.value))
    && (Undone(v.saga) ==> Undone(v'.saga))
    && (v.pay.Some? ==> v'.pay.Some? && v'.pay.value.id == v.pay.value.id && v.pay.value.es <= v'.pay.value.es)
    && (v.order.Some? && Undone(v.saga) && Holds(v, v.order.value, Released) ==> v'.rows == v.rows)
  }

  // ---------- the whole ----------

  ghost predicate OrderOk(s: Sys, o: Id) {
    ViewOk(o, ViewOf(s, o))
  }

  ghost predicate InFlightOk(s: Sys, h: Id)
    requires h in s.handlers
  {
    HandlerOk(ViewOf(s, s.handlers[h].copy.id), s.handlers[h])
  }

  // What is not about one order.
  ghost predicate Sound(s: Sys, init: map<Id, nat>) {
    && LedgerInv(s.ledger, init)
    && StreamsLegal(s.streams) && OnePerOrder(s.streams)
    && s.refunding <= s.streams.Keys
  }

  ghost predicate OthersSame(s: Sys, s': Sys, o: Id) {
    forall o': Id | o' != o :: ViewOf(s', o') == ViewOf(s, o')
  }

  ghost predicate Inv(s: Sys, init: map<Id, nat>) {
    && (forall o: Id :: OrderOk(s, o))
    && (forall h | h in s.handlers :: InFlightOk(s, h))
    && Sound(s, init)
  }

  lemma {:induction false} HandlerStable(v: View, v': View, x: Handler)
    requires HandlerOk(v, x) && Evolves(v, v')
    requires v'.pay.Some? ==> P.Legal(v'.pay.value.id, v'.pay.value.es)
    ensures HandlerOk(v', x)
  {
    assert v.pay.value.es[1] == v'.pay.value.es[1];
    if x.at == ToFinish {
      assert HeldItems(v'.order.value) == HeldItems(v.order.value);
    }
  }

  // What a view needs of the whole state beyond itself.
  lemma {:induction false} ViewPayLegal(s: Sys, o: Id)
    requires StreamsLegal(s.streams)
    ensures ViewOf(s, o).pay.Some? ==>
              var pay := ViewOf(s, o).pay.value;
              pay.id in s.streams && s.streams[pay.id] == pay.es && BelongsTo(pay.es, o) && P.Legal(pay.id, pay.es)
  {
  }

  // A step that touches one order preserves the invariant if it does so for that order.
  lemma {:induction false} LocalStep(s: Sys, s': Sys, o: Id, init: map<Id, nat>)
    requires Inv(s, init)
    requires OthersSame(s, s', o) && s'.handlers == s.handlers && Sound(s', init)
    requires ViewOk(o, ViewOf(s', o)) && Evolves(ViewOf(s, o), ViewOf(s', o))
    ensures Inv(s', init)
  {
    forall o': Id ensures OrderOk(s', o') {
      assert OrderOk(s, o');
    }
    forall h | h in s'.handlers ensures InFlightOk(s', h) {
      var x := s'.handlers[h];
      assert InFlightOk(s, h);
      if x.copy.id == o {
        ViewPayLegal(s', o);
        HandlerStable(ViewOf(s, o), ViewOf(s', o), x);
      }
    }
  }
}
