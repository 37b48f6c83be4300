/** Without failures every charged-for order drains to its outcome: each delivery with work to do
    lowers a measure, and when no row has work left the outcome is decided by the total alone, also after
    a run full of failures. */
module SagaDrain {
  import opened Common
  import opened Orders
  import opened StockLedger
  import opened EventStore
  import opened PaymentService
  import opened SagaSystem
  import opened SagaInvariant
  import opened StockFrames
  import opened SagaFrames
  import opened SagaSteps
  import opened SagaShares
  import opened SagaTheorems
  import opened SagaDelivery
  import opened SagaLiveness
  import opened HeldLines
  import P = Payment

  // How many deliveries an order still waits for: the charge, its outcome, the stock's commitment.
  function Phase(o: Id, v: View): nat {
    if v.order.None? then 0
    else
      match v.order.value.status
      case PendingPayment =>
        if v.pay.None? then (if v.order.value.total > 0 then 3 else 0)
        else if P.TurnedDown(v.pay.value.es) || !Undone(v.saga) then 2 else 0
      case Confirmed => if |Select(v.rows, o)| > 0 then 1 else 0
      case _ => 0
  }

  // The order is heading for the outcome its total calls for.
  predicate OnTrack(v: View) {
    && v.order.Some? && v.order.value.total > 0
    && match v.order.value.status
       case PendingPayment =>
         v.pay.Some? ==> if v.order.value.total <= GATEWAY_MAX_CENTS then P.Captured(v.pay.value.es)
             && v.saga == Some(AwaitingPayment)
                         else P.TurnedDown(v.pay.value.es)
       case Confirmed => v.order.value.total <= GATEWAY_MAX_CENTS
       case PaymentFailed => v.order.value.total > GATEWAY_MAX_CENTS
       case _ => false
  }

  predicate Progress(o: Id, v: View, v': View) {
    Phase(o, v') < Phase(o, v) && (OnTrack(v) ==> OnTrack(v'))
  }

  // ---------- each effective delivery, on the share of its order ----------

  lemma {:induction false} ConfirmProgress(o: Id, v: View, x: Handler)
    requires ViewOk(o, v) && HandlerOk(v, x) && x.kind == Confirming && v.saga == Some(AwaitingPayment)
    ensures Progress(o, v, Closed(v, x, Completed, OrderConfirmed))
  {
  }

  lemma {:induction false} FailProgress(o: Id, v: View, x: Handler, rows: seq<Row>, releases: nat)
    requires ViewOk(o, v) && HandlerOk(v, x) && x.kind == Failing && v.order.value.status == PendingPayment
    ensures Progress(o, v,
            Closed(v, x, Compensated, OrderCancelled).(rows := rows, releases := releases, releasing := true))
  {
  }

  lemma {:induction false} PayProgress(o: Id, v: View, id: Id, es: seq<P.Event>, msgs: seq<PayMessage>)
    requires ViewOk(o, v) && v.pay.None? && v.order.Some? && v.order.value.status != Pending && v.order.value.total > 0
    requires |es| == 2 && (if v.order.value.total <= GATEWAY_MAX_CENTS then P.Captured(es) else P.TurnedDown(es))
    ensures Progress(o, v, v.(pay := Some(Pay(id, es)), msgs := msgs))
  {
  }

  lemma {:induction false} CommitProgress(o: Id, v: View, sales: nat)
    requires v.order.Some? && v.order.value.status == Confirmed && |Select(v.rows, o)| > 0
    ensures Progress(o, v, v.(rows := SetStatus(v.rows, o, RowStatus.Committed), sales := sales))
  {
    SelectAfterSetStatus(v.rows, o, RowStatus.Committed);
  }

  // ---------- each effective delivery, on the whole state ----------

  predicate Effective(s: Sys, d: Delivery) {
    Clean(s, d) && !Settled(s, d) && (d.ToPayment? ==> !d.breakerOpen)
  }

  lemma {:induction false} ConfirmViews(s: Sys, x: Handler, event: Id)
    requires x.copy.id in s.db.orders && s.db.orders[x.copy.id].id == x.copy.id && x.kind == Confirming
    ensures OthersSame(s, Closing(s, x, event), x.copy.id)
    ensures ViewOf(Closing(s, x, event), x.copy.id) == Closed(ViewOf(s, x.copy.id), x, Completed, OrderConfirmed)
  {
    ClosedViews(s, x, Completed, OrderConfirmed);
    SameShares(s.(db := ClosedTables(s.db, x, Completed, OrderConfirmed)), Closing(s, x, event));
  }

  lemma {:induction false} FailViews(s: Sys, x: Handler, event: Id)
    requires x.copy.id in s.db.orders && s.db.orders[x.copy.id].id == x.copy.id && x.kind == Failing
    ensures OthersSame(s, Closing(s, x, event), x.copy.id)
    ensures var v' := ViewOf(Closing(s, x, event), x.copy.id);
            v' == Closed(ViewOf(s, x.copy.id), x, Compensated, OrderCancelled).(rows := v'.rows,
                releases := v'.releases, releasing := true)
  {
    ClosedViews(s, x, Compensated, OrderCancelled);
    ReleaseFrame(s.ledger, x.copy.id);
  }

  lemma {:induction false} OrdersProgress(s: Sys, d: Delivery, init: map<Id, nat>)
    requires Inv(s, init) && Effective(s, d) && d.ToOrders?
    ensures OthersSame(s, AfterDelivery(s, d), OrderOf(s, d))
    ensures Progress(OrderOf(s, d), ViewOf(s, OrderOf(s, d)), ViewOf(AfterDelivery(s, d), OrderOf(s, d)))
  {
    var o, s' := OrderOf(s, d), AfterDelivery(s, d);
    OrdersExact(s, d, init);
    StartsWell(s, d.i, d.event, init);
    var x := HandlerFor(s, s.payOutbox[d.i], d.event);
    At(s, o, init);
    if x.kind == Confirming {
      ConfirmViews(s, x, d.event);
      ConfirmProgress(o, ViewOf(s, o), x);
    } else {
      FailViews(s, x, d.event);
      FailProgress(o, ViewOf(s, o), x, ViewOf(s', o).rows, ViewOf(s', o).releases);
    }
  }

  lemma {:induction false} PaymentProgress(s: Sys, d: Delivery, init: map<Id, nat>)
    requires Inv(s, init) && Effective(s, d) && d.ToPayment?
    ensures OthersSame(s, AfterDelivery(s, d), OrderOf(s, d))
    ensures Progress(OrderOf(s, d), ViewOf(s, OrderOf(s, d)), ViewOf(AfterDelivery(s, d), OrderOf(s, d)))
  {
    var e, id := s.db.outbox[d.i], d.freshId;
    PaymentExact(s, d, init);
    At(s, e.order, init);
    EventsForMember(s.db.outbox, d.i);
    ViewAnnounces(e.order, ViewOf(s, e.order), e);
    ChargeShape(s, e, id, false);
    ProcessKeeps(s.streams, e.order, e.customer, e.total, e.currency, id, false, false);
    ChargeStores(s, e, d.event, id);
    var es := AfterDelivery(s, d).streams[id];
    ChargeViews(s, AfterDelivery(s, d), e.order, id, es, MessagesUpTo(P.Replay(P.ZERO, es), es, |es|));
    PayProgress(e.order, ViewOf(s, e.order), id, es, ViewOf(AfterDelivery(s, d), e.order).msgs);
  }

  lemma {:induction false} ChargeStores(s: Sys, e: OrderEvent, event: Id, id: Id)
    requires e.kind == OrderReadyForPayment && id !in s.streams && id != NIL && event !in s.payMarks
    requires e.order != NIL && e.customer != NIL && |e.currency| > 0 && e.total > 0 && !HasPayment(s.streams, e.order)
    ensures var s' := ChargeFor(s, e, event, id, false, true);
            var c := ProcessPayment(s.streams, e.order, e.customer, e.total, e.currency, id, false, false);
            && id in c.streams && id in s'.streams && c.streams == s'.streams
            && (var es := c.streams[id];
                s' == s.(streams := c.streams, payOutbox := s.payOutbox
                    + MessagesUpTo(P.Replay(P.ZERO, es), es, |es|), payMarks := s'.payMarks))
  {
  }

  lemma {:induction false} ChargeViews(s: Sys, s': Sys, o: Id, id: Id, es: seq<P.Event>, msgs: seq<PayMessage>)
    requires s' == s.(streams := s.streams[id := es], payOutbox := s.payOutbox + msgs, payMarks := s'.payMarks)
    requires id !in s.streams && s.refunding <= s.streams.Keys && BelongsTo(es, o)
    requires OnePerOrder(s.streams) && OnePerOrder(s'.streams)
    requires forall j | 0 <= j < |msgs| :: msgs[j].order == o
    requires ViewOf(s, o).pay.None?
    ensures OthersSame(s, s', o)
    ensures ViewOf(s', o) == ViewOf(s, o).(pay := Some(Pay(id, es)), msgs := ViewOf(s', o).msgs)
  {
    MessagesForAppend(s.payOutbox, msgs, o);
    PutStreamFrame(s.streams, id, es, o);
    assert id !in s.refunding;
    forall o': Id | o' != o ensures ViewOf(s', o') == ViewOf(s, o') {
      assert PayOf(s'.streams, o') == PayOf(s.streams, o');
    }
  }

  lemma {:induction false} CommitViews(s: Sys, s': Sys, o: Id)
    requires s' == s.(ledger := CommitOp(s.ledger, o), stockMarks := s'.stockMarks)
    ensures OthersSame(s, s', o)
    ensures ViewOf(s', o) == ViewOf(s, o).(rows := SetStatus(ViewOf(s, o).rows, o, RowStatus.Committed),
            sales := ViewOf(s', o).sales)
  {
    CommitFrame(s.ledger, o);
  }

  // The stock of a cancelled order went back before the cancellation was announced.
  lemma {:induction false} OnlyConfirmedStockWaits(s: Sys, d: Delivery, init: map<Id, nat>)
    requires Inv(s, init) && d.ToStock? && RowExists(s, d) && !Settled(s, d)
    ensures var o := OrderOf(s, d);
            && s.db.outbox[d.i].kind == OrderConfirmed
            && ViewOf(s, o).order.Some? && ViewOf(s, o).order.value.status == Confirmed
               && |Select(ViewOf(s, o).rows, o)| > 0
  {
    var e := s.db.outbox[d.i];
    At(s, e.order, init);
    EventsForMember(s.db.outbox, d.i);
    ViewAnnounces(e.order, ViewOf(s, e.order), e);
    SelectRowsOf(s.ledger.rows, e.order);
    SelectNewRows(e.order, HeldItems(s.db.orders[e.order]), Released);
  }

  lemma {:induction false} StockProgress(s: Sys, d: Delivery, init: map<Id, nat>)
    requires Inv(s, init) && Effective(s, d) && d.ToStock?
    ensures OthersSame(s, AfterDelivery(s, d), OrderOf(s, d))
    ensures Progress(OrderOf(s, d), ViewOf(s, OrderOf(s, d)), ViewOf(AfterDelivery(s, d), OrderOf(s, d)))
  {
    var o, s' := OrderOf(s, d), AfterDelivery(s, d);
    StockExact(s, d);
    OnlyConfirmedStockWaits(s, d, init);
    CommitViews(s, s', o);
    CommitProgress(o, ViewOf(s, o), ViewOf(s', o).sales);
  }

  lemma {:induction false} DeliveryProgress(s: Sys, d: Delivery, init: map<Id, nat>)
    requires Inv(s, init) && Effective(s, d)
    ensures OthersSame(s, AfterDelivery(s, d), OrderOf(s, d))
    ensures Progress(OrderOf(s, d), ViewOf(s, OrderOf(s, d)), ViewOf(AfterDelivery(s, d), OrderOf(s, d)))
  {
    if d.ToOrders? {
      OrdersProgress(s, d, init);
    } else if d.ToPayment? {
      PaymentProgress(s, d, init);
    } else {
      StockProgress(s, d, init);
    }
  }

  // ---------- runs of deliveries ----------

  function Drained(s: Sys, ds: seq<Delivery>): Sys {
    if |ds| == 0 then s else AfterDelivery(Drained(s, ds[..|ds| - 1]), ds[|ds| - 1])
  }

  // Every delivery is clean when its turn comes and meets a closed breaker.
  predicate FailureFree(s: Sys, ds: seq<Delivery>) {
    |ds| > 0 ==>
      var d := ds[|ds| - 1];
      FailureFree(s, ds[..|ds| - 1]) && Clean(Drained(s, ds[..|ds| - 1]), d) && (d.ToPayment? ==> !d.breakerOpen)
  }

  // How many of the deliveries had work to do.
  function Effects(s: Sys, ds: seq<Delivery>): nat {
    if |ds| == 0 then 0
    else Effects(s, ds[..|ds| - 1]) + if Effective(Drained(s, ds[..|ds| - 1]), ds[|ds| - 1]) then 1 else 0
  }

  ghost function Work(s: Sys, ids: seq<Id>): nat {
    if |ids| == 0 then 0 else Work(s, ids[..|ids| - 1]) + Phase(ids[|ids| - 1], ViewOf(s, ids[|ids| - 1]))
  }

  predicate Covers(s: Sys, ids: seq<Id>) {
    forall o | o in s.db.orders :: o in ids
  }

  // No row has work left for its consumer.
  ghost predicate Quiet(s: Sys) {
    forall d: Delivery | RowExists(s, d) :: Settled(s, d)
  }

  lemma {:induction false} WorkBounded(s: Sys, ids: seq<Id>)
    ensures Work(s, ids) <= 3 * |ids|
  {
    if |ids| > 0 {
      WorkBounded(s, ids[..|ids| - 1]);
    }
  }

  lemma {:induction false} WorkNeverGrows(s: Sys, s': Sys, o: Id, ids: seq<Id>)
    requires OthersSame(s, s', o) && Phase(o, ViewOf(s', o)) < Phase(o, ViewOf(s, o))
    ensures Work(s', ids) + (if o in ids then 1 else 0) <= Work(s, ids)
  {
    if |ids| > 0 {
      WorkNeverGrows(s, s', o, ids[..|ids| - 1]);
      assert o in ids ==> o in ids[..|ids| - 1] || ids[|ids| - 1] == o;
      assert ids[|ids| - 1] != o ==> ViewOf(s', ids[|ids| - 1]) == ViewOf(s, ids[|ids| - 1]);
    }
  }

  lemma {:induction false} SameCoreSameShare(s: Sys, s': Sys, o: Id)
    requires CoreOf(s) == CoreOf(s')
    ensures Phase(o, ViewOf(s', o)) == Phase(o, ViewOf(s, o)) && (OnTrack(ViewOf(s', o)) <==> OnTrack(ViewOf(s, o)))
  {
  }

  lemma {:induction false} SameCoreSameTotal(s: Sys, s': Sys, ids: seq<Id>)
    requires CoreOf(s) == CoreOf(s')
    ensures Work(s', ids) == Work(s, ids)
  {
    if |ids| > 0 {
      SameCoreSameTotal(s, s', ids[..|ids| - 1]);
      SameCoreSameShare(s, s', ids[|ids| - 1]);
    }
  }

  ghost predicate TracksKept(s: Sys, s': Sys) {
    forall o: Id | OnTrack(ViewOf(s, o)) :: OnTrack(ViewOf(s', o))
  }

  lemma {:induction false} IdleDeliveryDrains(s: Sys, d: Delivery, ids: seq<Id>, init: map<Id, nat>)
    requires Inv(s, init) && Covers(s, ids) && Clean(s, d) && Settled(s, d)
    ensures var s' := AfterDelivery(s, d);
            Covers(s', ids) && TracksKept(s, s') && Work(s', ids) <= Work(s, ids)
  {
    var s' := AfterDelivery(s, d);
    SettledChangesNothing(s, d, init);
    SameCoreSameTotal(s, s', ids);
    forall o: Id | OnTrack(ViewOf(s, o)) ensures OnTrack(ViewOf(s', o)) { SameCoreSameShare(s, s', o); }
  }

  lemma {:induction false} OneDeliveryDrains(s: Sys, d: Delivery, ids: seq<Id>, init: map<Id, nat>)
    requires Inv(s, init) && Covers(s, ids) && Clean(s, d) && (d.ToPayment? ==> !d.breakerOpen)
    ensures var s' := AfterDelivery(s, d);
            && Covers(s', ids) && TracksKept(s, s')
            && Work(s', ids) + (if Effective(s, d) then 1 else 0) <= Work(s, ids)
  {
    if Settled(s, d) {
      IdleDeliveryDrains(s, d, ids, init);
    } else {
      var o, s' := OrderOf(s, d), AfterDelivery(s, d);
      DeliveryProgress(s, d, init);
      WorkNeverGrows(s, s', o, ids);
      assert ViewOf(s, o).order.Some?;
      assert o in s.db.orders;
      forall o' | o' in s'.db.orders ensures o' in ids {
        assert o' != o ==> ViewOf(s', o').order == ViewOf(s, o').order;
      }
    }
  }

  // Of any failure-free deliveries, at most three per order have an effect.
  lemma {:induction false} Drains(s: Sys, ds: seq<Delivery>, ids: seq<Id>, init: map<Id, nat>)
    requires Inv(s, init) && Covers(s, ids) && FailureFree(s, ds)
    ensures Inv(Drained(s, ds), init) && Covers(Drained(s, ds), ids) && TracksKept(s, Drained(s, ds))
    ensures Effects(s, ds) + Work(Drained(s, ds), ids) <= Work(s, ids) <= 3 * |ids|
  {
    WorkBounded(s, ids);
    if |ds| > 0 {
      var before, d := Drained(s, ds[..|ds| - 1]), ds[|ds| - 1];
      Drains(s, ds[..|ds| - 1], ids, init);
      OneDeliveryDrains(before, d, ids, init);
      DeliveryKeeps(before, d, init);
    }
  }

  // ---------- quiescence ----------

  // An order with work left has a row whose delivery does some of it.
  lemma {:induction false} QuietMeansDone(s: Sys, o: Id, init: map<Id, nat>)
    requires Inv(s, init) && Quiet(s)
    ensures Phase(o, ViewOf(s, o)) == 0
  {
    At(s, o, init);
    var v := ViewOf(s, o);
    if Phase(o, v) == 3 {
      ReadyRowWaits(s, o, init);
    } else if Phase(o, v) == 2 {
      OutcomeRowWaits(s, o, init);
    } else if Phase(o, v) == 1 {
      ConfirmedRowWaits(s, o, init);
    }
  }

  lemma {:induction false} ReadyRowWaits(s: Sys, o: Id, init: map<Id, nat>)
    requires Inv(s, init) && Phase(o, ViewOf(s, o)) == 3
    ensures !Quiet(s)
  {
    At(s, o, init);
    var e := ViewOf(s, o).events[1];
    EventsForBack(s.db.outbox, o, e);
    var i :| 0 <= i < |s.db.outbox| && s.db.outbox[i] == e;
    var d := ToPayment(i, 0, 0, false);
    assert RowExists(s, d) && !Settled(s, d);
  }

  lemma {:induction false} OutcomeRowWaits(s: Sys, o: Id, init: map<Id, nat>)
    requires Inv(s, init) && Phase(o, ViewOf(s, o)) == 2
    ensures !Quiet(s)
  {
    At(s, o, init);
    var m := ViewOf(s, o).msgs[1];
    MessagesForBack(s.payOutbox, o, m);
    var i :| 0 <= i < |s.payOutbox| && s.payOutbox[i] == m;
    var d := ToOrders(i, 0, 0);
    assert RowExists(s, d) && !Settled(s, d);
  }

  lemma {:induction false} ConfirmedRowWaits(s: Sys, o: Id, init: map<Id, nat>)
    requires Inv(s, init) && Phase(o, ViewOf(s, o)) == 1
    ensures !Quiet(s)
  {
    At(s, o, init);
    var e := ViewOf(s, o).events[2];
    EventsForBack(s.db.outbox, o, e);
    var i :| 0 <= i < |s.db.outbox| && s.db.outbox[i] == e;
    var d := ToStock(i, 0);
    SelectRowsOf(s.ledger.rows, o);
    assert RowExists(s, d) && !Settled(s, d);
  }

  // An identifier not in use.
  ghost function Above(xs: set<Id>): (r: Id)
    ensures r > 0 && forall x | x in xs :: x < r
  {
    if xs == {} then 1
    else
      var x :| x in xs;
      var m := Above(xs - {x});
      assert forall y | y in xs :: y == x || y in xs - {x};
      if x < m then m else x + 1
  }

  ghost function Afresh(s: Sys, d: Delivery): (r: Delivery)
    requires RowExists(s, d)
    ensures RowExists(s, r) && Clean(s, r) && SameRow(d, r) && (r.ToPayment? ==> !r.breakerOpen)
  {
    match d
    case ToPayment(i, _, _, _) => ToPayment(i, Above(s.payMarks), Above(s.streams.Keys), false)
    case ToOrders(i, _, _) => ToOrders(i, Above(s.orderMarks), Above(s.handlers.Keys))
    case ToStock(i, _) => ToStock(i, Above(s.stockMarks))
  }

  // Unless all is quiet, some further delivery does work.
  lemma {:induction false} OneMore(s: Sys, ds: seq<Delivery>, ids: seq<Id>, init: map<Id, nat>) returns (d: Delivery)
    requires Inv(s, init) && Covers(s, ids) && FailureFree(s, ds) && !Quiet(Drained(s, ds))
    ensures FailureFree(s, ds + [d]) && Work(Drained(s, ds + [d]), ids) < Work(Drained(s, ds), ids)
  {
    var t := Drained(s, ds);
    Drains(s, ds, ids, init);
    var d0 :| RowExists(t, d0) && !Settled(t, d0);
    d := Afresh(t, d0);
    if Settled(t, d) {
      SettledSameRow(t, d, d0);
    }
    assert (ds + [d])[..|ds|] == ds;
    OneDeliveryDrains(t, d, ids, init);
  }

  // Failure-free deliveries can always be continued until no row has work left.
  lemma {:induction false} QuietIsReachable(s: Sys, ds: seq<Delivery>, ids: seq<Id>, init: map<Id, nat>)
    returns (all: seq<Delivery>)
    requires Inv(s, init) && Covers(s, ids) && FailureFree(s, ds)
    ensures ds <= all && FailureFree(s, all) && Quiet(Drained(s, all))
    decreases Work(Drained(s, ds), ids)
  {
    if Quiet(Drained(s, ds)) {
      all := ds;
    } else {
      var d := OneMore(s, ds, ids, init);
      all := QuietIsReachable(s, ds + [d], ids, init);
    }
  }

  // The order ends as its total calls for.
  ghost predicate Concluded(s: Sys, o: Id) {
    && o in s.db.orders
    && var ord := s.db.orders[o];
       if ord.total <= 1_000_000 then
         && ord.status == Confirmed && Lookup(s.db.sagas, o) == Some(Completed)
         && HoldsLines(s.ledger.rows, ord, RowStatus.Committed)
       else
         && ord.status == Status.PaymentFailed && Lookup(s.db.sagas, o) == Some(Compensated)
         && AllReturned(s, o, ord)
  }

  lemma {:induction false} QuietConcludes(s: Sys, o: Id, init: map<Id, nat>)
    requires Inv(s, init) && Quiet(s) && OnTrack(ViewOf(s, o))
    ensures Concluded(s, o)
  {
    At(s, o, init);
    QuietMeansDone(s, o, init);
    var ord := s.db.orders[o];
    FirstIsHeld(o, ItemsOf(ord.lines), |ord.lines|);
    if ViewOf(s, o).rows == NewRows(o, HeldItems(ord), Reserved) {
      SelectNewRows(o, HeldItems(ord), Reserved);
    }
    HoldingIsLines(s, o, if ord.status == Confirmed then RowStatus.Committed else Released, init);
  }

  // From any reachable state, an order awaiting its first charge ends, once failure-free deliveries
  // leave no row with work to do, confirmed with its stock sold if the gateway takes its total, and
  // otherwise payment_failed with its stock back.
  lemma {:induction false} EveryOrderConcludes(s0: Sys, steps: seq<Step>, init: map<Id, nat>, ds: seq<Delivery>, o: Id)
    requires Initial(s0, init) && FailureFree(Run(s0, steps), ds) && Quiet(Drained(Run(s0, steps), ds))
    requires var s := Run(s0, steps);
             o in s.db.orders && s.db.orders[o].status == PendingPayment && s.db.orders[o].total > 0
                 && !HasPayment(s.streams, o)
    ensures Concluded(Drained(Run(s0, steps), ds), o)
    ensures forall ids | Covers(Run(s0, steps), ids) :: Effects(Run(s0, steps), ds) <= 3 * |ids|
  {
    var s := Run(s0, steps);
    Reachable(s0, steps, init);
    forall ids | Covers(s, ids)
      ensures Effects(s, ds) <= 3 * |ids| && Inv(Drained(s, ds), init) && TracksKept(s, Drained(s, ds))
    {
      Drains(s, ds, ids, init);
    }
    var ids := Listed(s.db.orders.Keys);
    assert Covers(s, ids);
    assert OnTrack(ViewOf(s, o));
    QuietConcludes(Drained(s, ds), o, init);
  }

  ghost function Listed(xs: set<Id>): (r: seq<Id>)
    ensures forall x | x in xs :: x in r
  {
    if xs == {} then [] else var x :| x in xs; [x] + Listed(xs - {x})
  }

  // ---------- draining through faults ----------

  // The step neither cancels the order nor charges it while the breaker is open.
  predicate Spares(s: Sys, step: Step, o: Id) {
    && (step.StartCancel? ==> step.payment !in s.streams || !BelongsTo(s.streams[step.payment], o))
    && (step.DeliverToPayment? && Owner(s, step) == o ==> !step.breakerOpen)
  }

  predicate AllSpare(s: Sys, steps: seq<Step>, o: Id) {
    |steps| > 0 ==>
      var front := steps[..|steps| - 1];
      AllSpare(s, front, o) && Spares(Run(s, front), steps[|steps| - 1], o)
  }

  // No FailAfterPayment is at work on the order.
  predicate NoCanceller(s: Sys, o: Id) {
    forall h | h in s.handlers && s.handlers[h].copy.id == o :: !s.handlers[h].kind.Cancelling?
  }

  lemma {:induction false} TrackMoves(s: Sys, step: Step, o: Id, v: View, v': View)
    requires ViewOk(o, v) && OnTrack(v) && StepMoves(s, step, o, v, v')
    requires step.DeliverToPayment? ==> !step.breakerOpen
    requires step.Handling? && step.h in s.handlers ==>
               HandlerOk(v, s.handlers[step.h]) && !s.handlers[step.h].kind.Cancelling?
    ensures OnTrack(v')
  {
  }

  lemma {:induction false} TrackStep(s: Sys, step: Step, o: Id, init: map<Id, nat>)
    requires Inv(s, init) && OnTrack(ViewOf(s, o)) && NoCanceller(s, o) && Spares(s, step, o)
    ensures OnTrack(ViewOf(Next(s, step), o))
  {
    At(s, o, init);
    StepShare(s, step, o, init);
    if ViewOf(Next(s, step), o) != ViewOf(s, o) {
      if step.Handling? && step.h in s.handlers {
        assert InFlightOk(s, step.h);
      }
      TrackMoves(s, step, o, ViewOf(s, o), ViewOf(Next(s, step), o));
    }
  }

  lemma {:induction false} NoCancellerStep(s: Sys, step: Step, o: Id, init: map<Id, nat>)
    requires Inv(s, init) && NoCanceller(s, o) && Spares(s, step, o)
    ensures NoCanceller(Next(s, step), o)
  {
    forall h | h in Next(s, step).handlers && Next(s, step).handlers[h].copy.id == o
      ensures !Next(s, step).handlers[h].kind.Cancelling?
    {
      HandlersMove(s, step, h, init);
    }
  }

  lemma {:induction false} TrackRun(s: Sys, steps: seq<Step>, o: Id, init: map<Id, nat>)
    requires Inv(s, init) && OnTrack(ViewOf(s, o)) && NoCanceller(s, o) && AllSpare(s, steps, o)
    ensures Inv(Run(s, steps), init) && OnTrack(ViewOf(Run(s, steps), o)) && NoCanceller(Run(s, steps), o)
  {
    if |steps| > 0 {
      var front, step := steps[..|steps| - 1], steps[|steps| - 1];
      TrackRun(s, front, o, init);
      StepKeeps(Run(s, front), step, init);
      TrackStep(Run(s, front), step, o, init);
      NoCancellerStep(Run(s, front), step, o, init);
    }
  }

  // Through any crashes, overlaps, reorderings, redeliveries, lost and late calls, an order awaiting its
  // first charge ends as its total calls for once no row has work left, as long as nobody cancels it and
  // the breaker is closed when it is charged.
  lemma {:induction false} FaultyRunsConclude(s0: Sys, steps: seq<Step>, init: map<Id, nat>, more: seq<Step>, o: Id)
    requires Initial(s0, init) && AllSpare(Run(s0, steps), more, o) && Quiet(Run(Run(s0, steps), more))
    requires var s := Run(s0, steps);
             o in s.db.orders && s.db.orders[o].status == PendingPayment && s.db.orders[o].total > 0
             && !HasPayment(s.streams, o)
    ensures Concluded(Run(Run(s0, steps), more), o)
  {
    var s := Run(s0, steps);
    Reachable(s0, steps, init);
    assert forall h | h in s.handlers && s.handlers[h].copy.id == o && s.handlers[h].kind.Cancelling? ::
        InFlightOk(s, h);
    TrackRun(s, more, o, init);
    QuietConcludes(Run(s, more), o, init);
  }

  // A free order is never charged, so it never leaves pending_payment.
  lemma {:induction false} FreeOrderIsNeverPaid(s0: Sys, steps: seq<Step>, init: map<Id, nat>, o: Id)
    requires Initial(s0, init) && o in Run(s0, steps).db.orders && Run(s0, steps).db.orders[o].total == 0
    ensures !HasPayment(Run(s0, steps).streams, o)
    ensures Run(s0, steps).db.orders[o].status == Pending || Run(s0, steps).db.orders[o].status == PendingPayment
  {
    var s := Run(s0, steps);
    Reachable(s0, steps, init);
    At(s, o, init);
    ViewPayLegal(s, o);
  }
}
