/** Every step of the saga system keeps the invariant. */
module SagaSteps {
  import opened Common
  import opened Orders
  import opened StockLedger
  import opened ReserveLaws
  import opened EventStore
  import opened PaymentService
  import opened Inventory
  import opened SagaSystem
  import opened SagaInvariant
  import opened StockFrames
  import opened SagaFrames
  import P = Payment

  lemma {:induction false} At(s: Sys, o: Id, init: map<Id, nat>)
    requires Inv(s, init)
    ensures ViewOk(o, ViewOf(s, o))
  {
    assert OrderOk(s, o);
  }

  lemma {:induction false} CountersFine(s: Sys, init: map<Id, nat>)
    requires Inv(s, init)
    ensures CountersOk(s.ledger)
  {
    forall p | p in s.ledger.stock ensures s.ledger.stock[p].reserved >= 0 {
      assert Balanced(s.ledger, init, p);
    }
  }

  // ---------- what a step may do to one order's share ----------

  lemma {:induction false} ViewReserves(o: Id, v: View, ord: Order, then': Option<Create>)
    requires ViewOk(o, v) && (v.create == Some(Reserving(ord)) || v.create == Some(Abandoned(ord)))
    requires then' == None || then' == Some(Saving(ord))
    ensures v.order.None? && v.rows == [] && ord.id == o && v.releases == 0 && v.sales == 0
    ensures var v' := v.(rows := NewRows(o, HeldItems(ord), Reserved), create := then');
            ViewOk(o, v') && Evolves(v, v')
  {
  }

  lemma {:induction false} ViewSaves(o: Id, v: View, ord: Order, stored: bool)
    requires ViewOk(o, v) && v.create == Some(Saving(ord)) && ord.total >= 0
    ensures v.order.None? && v.events == [] && ord.id == o
    ensures var v' := v.(order := Some(ord), events := [EventOf(OrderCreated, ord)],
                         create := Some(if stored then Marking(ord) else Undoing(ord)));
            ViewOk(o, v') && Evolves(v, v')
  {
    var v' := v.(order := Some(ord), events := [EventOf(OrderCreated, ord)],
                 create := Some(if stored then Marking(ord) else Undoing(ord)));
    assert ord.(status := Pending) == ord;
    assert v'.events == Announced(ord);
  }

  lemma {:induction false} ViewMarks(o: Id, v: View, copy: Order)
    requires ViewOk(o, v) && v.create == Some(Copied(copy)) && v.order == Some(copy)
    ensures var v' := v.(order := Some(copy.(status := PendingPayment, version := 2)), saga := Some(AwaitingPayment),
            create := None,
                         events := v.events + [EventOf(OrderReadyForPayment, copy.(status := PendingPayment))]);
            ViewOk(o, v') && Evolves(v, v')
  {
  }

  // A release in flight, or a saga already compensating, permits giving the stock back.
  lemma {:induction false} ViewReleases(o: Id, v: View, v': View)
    requires ViewOk(o, v) && (v.releasing || Undone(v.saga))
    requires v' == v.(rows := SetStatus(v.rows, o, Released), releases := v'.releases)
    ensures ViewOk(o, v') && Evolves(v, v')
  {
    if v.order.Some? {
      SetStatusUniform(o, HeldItems(v.order.value), Reserved, Released);
      SetStatusUniform(o, HeldItems(v.order.value), Released, Released);
    }
  }

  lemma {:induction false} ViewCommits(o: Id, v: View, v': View)
    requires ViewOk(o, v) && v.order.Some? && v.order.value.status == Confirmed
    requires v' == v.(rows := SetStatus(v.rows, o, RowStatus.Committed), sales := v'.sales)
    ensures ViewOk(o, v') && Evolves(v, v')
  {
    SetStatusUniform(o, HeldItems(v.order.value), Reserved, RowStatus.Committed);
    SetStatusUniform(o, HeldItems(v.order.value), RowStatus.Committed, RowStatus.Committed);
  }

  lemma {:induction false} ViewRefunds(o: Id, v: View, id: Id, es: seq<P.Event>, m: PayMessage)
    requires ViewOk(o, v) && v.refunding && v.pay.Some? && v.pay.value.id == id
    requires P.Captured(v.pay.value.es) && P.Legal(id, es) && |es| == 3 && v.pay.value.es == es[..2]
    requires m.kind == EvRefunded && m.payment == id && m.order == o
    ensures var v' := v.(pay := Some(Pay(id, es)), msgs := v.msgs + [m]);
            ViewOk(o, v') && Evolves(v, v')
  {
    assert es[..2][0] == es[0] && es[..2][1] == es[1];
  }

  lemma {:induction false} ViewPays(o: Id, v: View, id: Id, es: seq<P.Event>, msgs: seq<PayMessage>)
    requires ViewOk(o, v) && v.order.Some? && v.order.value.status != Pending && v.pay.None? && !v.refunding
    requires PaymentMatches(Pay(id, es), v.order.value) && |es| == 2 && Told(msgs, Pay(id, es), o)
    ensures var v' := v.(pay := Some(Pay(id, es)), msgs := v.msgs + msgs);
            ViewOk(o, v') && Evolves(v, v')
  {
    assert v.msgs + msgs == msgs;
  }

  // The closing transaction of a handler, as its order's share sees it.
  function Closed(v: View, x: Handler, saga: SagaState, kind: OrderEventKind): View
    requires v.order.Some?
  {
    var to := Target(x.kind);
    v.(order := Some(v.order.value.(status := to, version := x.copy.version + 1)), saga := Some(saga),
       events := v.events + [EventOf(kind, x.copy.(status := to))])
  }

  lemma {:induction false} ViewConfirms(o: Id, v: View, x: Handler)
    requires ViewOk(o, v) && HandlerOk(v, x) && x.at == ToConfirm
    requires v.saga == Some(AwaitingPayment) || v.saga == Some(Paid)
    ensures var v' := Closed(v, x, Completed, OrderConfirmed);
            ViewOk(o, v') && Evolves(v, v')
  {
  }

  lemma {:induction false} ViewFinishes(o: Id, v: View, x: Handler)
    requires ViewOk(o, v) && HandlerOk(v, x) && x.at == ToFinish && v.order.value.version == x.copy.version
    ensures var v' := Closed(v, x, Compensated, OrderCancelled);
            ViewOk(o, v') && Evolves(v, v')
  {
  }

  // What an announced event says of its order.
  lemma {:induction false} ViewAnnounces(o: Id, v: View, e: OrderEvent)
    requires ViewOk(o, v) && e in v.events
    ensures v.order.Some? && v.order.value.id == o && e.order == o
    ensures e.kind == OrderReadyForPayment ==>
              v.order.value.status != Pending && e.customer == v.order.value.customer
                  && e.total == v.order.value.total && e.currency == v.order.value.currency
    ensures e.kind == OrderConfirmed ==> v.order.value.status == Confirmed
    ensures e.kind == OrderCancelled ==>
              v.order.value.status == Status.PaymentFailed || v.order.value.status == Cancelled
  {
  }

  // What an announced payment outcome says of its payment and order.
  lemma {:induction false} ViewTells(o: Id, v: View, m: PayMessage)
    requires ViewOk(o, v) && m in v.msgs && (m.kind == EvProcessed || m.kind == EvFailed)
    ensures v.order.Some? && v.pay.Some? && m.payment == v.pay.value.id && Charged2(v.pay.value.es)
            && v.order.value.status != Pending
    ensures m.kind == EvProcessed <==> v.pay.value.es[1].PaymentProcessed?
  {
    var j :| 0 <= j < |v.msgs| && v.msgs[j] == m;
    assert j == 1;
  }

  // Ending or crashing a handler changes no order's share.
  lemma {:induction false} EndHandlerKeeps(s: Sys, h: Id, init: map<Id, nat>)
    requires Inv(s, init)
    ensures Inv(EndHandler(s, h), init)
  {
    var s' := EndHandler(s, h);
    forall o: Id ensures ViewOf(s', o) == ViewOf(s, o) {}
    forall o: Id ensures OrderOk(s', o) { assert OrderOk(s, o); }
  }

  lemma {:induction false} WithHandlerKeeps(s: Sys, h: Id, x: Handler, init: map<Id, nat>)
    requires Inv(s, init) && HandlerOk(ViewOf(s, x.copy.id), x)
    ensures Inv(WithHandler(s, h, x), init)
  {
    var s' := WithHandler(s, h, x);
    forall o: Id ensures ViewOf(s', o) == ViewOf(s, o) {}
    forall o: Id ensures OrderOk(s', o) { assert OrderOk(s, o); }
  }

  lemma {:induction false} MarkKeeps(s: Sys, s': Sys, init: map<Id, nat>)
    requires Inv(s, init)
    requires s' == s.(orderMarks := s'.orderMarks, stockMarks := s'.stockMarks, payMarks := s'.payMarks)
    ensures Inv(s', init)
  {
    forall o: Id ensures ViewOf(s', o) == ViewOf(s, o) {}
    forall o: Id ensures OrderOk(s', o) { assert OrderOk(s, o); }
  }

  // ---------- how changes of the tables show in the shares ----------

  // The tables of the order service and one create handler change, for one order.
  lemma {:induction false} DbViews(s: Sys, t: OrderTables, o: Id, c: Option<Create>)
    requires DbFrame(s.db, t, o)
    ensures var s' := s.(db := t, creates := if c.Some? then s.creates[o := c.value] else s.creates - {o});
            && OthersSame(s, s', o)
            && ViewOf(s', o) == ViewOf(s, o).(order := Lookup(t.orders, o), saga := Lookup(t.sagas, o),
               events := EventsFor(t.outbox, o), create := c)
  {
  }

  // The tables of the order service change, for one order.
  lemma {:induction false} OrderViews(s: Sys, t: OrderTables, o: Id)
    requires DbFrame(s.db, t, o)
    ensures var s' := s.(db := t);
            && OthersSame(s, s', o)
            && ViewOf(s', o) == ViewOf(s, o).(order := Lookup(t.orders, o), saga := Lookup(t.sagas, o),
               events := EventsFor(t.outbox, o))
  {
  }

  // The ledger changes, for one order.
  lemma {:induction false} LedgerViews(s: Sys, l: Ledger, o: Id)
    requires LedgerFrame(s.ledger, l, o)
    ensures var s' := s.(ledger := l);
            && OthersSame(s, s', o)
            && ViewOf(s', o) == ViewOf(s, o).(rows := RowsOf(l.rows, o), releases := MoveCount(l.moves, o, Release),
               sales := MoveCount(l.moves, o, Sale))
  {
  }

  // A stream is opened or extended, and its events announced, for one order.
  lemma {:induction false} StreamViews(s: Sys, o: Id, id: Id, es: seq<P.Event>, msgs: seq<PayMessage>)
    requires OnePerOrder(s.streams) && OnePerOrder(s.streams[id := es]) && BelongsTo(es, o)
    requires id in s.streams ==> BelongsTo(s.streams[id], o)
    requires forall j | 0 <= j < |msgs| :: msgs[j].order == o
    ensures var s' := s.(streams := s.streams[id := es], payOutbox := s.payOutbox + msgs);
            && OthersSame(s, s', o)
            && ViewOf(s', o) == ViewOf(s, o).(pay := Some(Pay(id, es)), msgs := ViewOf(s, o).msgs + msgs,
               refunding := id in s.refunding)
  {
    MessagesForAppend(s.payOutbox, msgs, o);
    PutStreamFrame(s.streams, id, es, o);
    var s' := s.(streams := s.streams[id := es], payOutbox := s.payOutbox + msgs);
    forall o': Id | o' != o ensures ViewOf(s', o') == ViewOf(s, o') {
      assert PayOf(s'.streams, o') == PayOf(s.streams, o');
    }
  }

  lemma {:induction false} CreateViews(s: Sys, o: Id, c: Option<Create>)
    ensures var s' := if c.Some? then WithCreate(s, o, c.value) else EndCreate(s, o);
            OthersSame(s, s', o) && ViewOf(s', o) == ViewOf(s, o).(create := c)
  {
  }

  // ---------- the create handler ----------

  lemma {:induction false} BeginCreateViews(s: Sys, ord: Order)
    requires IsNew(ord) && ord.id !in s.used
    ensures var s' := Next(s, BeginCreate(ord));
            && OthersSame(s, s', ord.id)
            && ViewOf(s', ord.id) == ViewOf(s, ord.id).(create := Some(Reserving(ord)), used := true)
  {
  }

  lemma {:induction false} BeginCreateKeeps(s: Sys, ord: Order, init: map<Id, nat>)
    requires Inv(s, init)
    ensures Inv(Next(s, BeginCreate(ord)), init)
  {
    if IsNew(ord) && ord.id !in s.used {
      At(s, ord.id, init);
      BeginCreateViews(s, ord);
      LocalStep(s, Next(s, BeginCreate(ord)), ord.id, init);
    }
  }

  // Moving the create handler on, with everything else as it was.
  lemma {:induction false} CreateMoves(s: Sys, s': Sys, o: Id, init: map<Id, nat>)
    requires Inv(s, init)
    requires s' == s.(creates := s'.creates, releasing := s'.releasing)
    requires forall o': Id | o' != o ::
               Lookup(s'.creates, o') == Lookup(s.creates, o') && (o' in s'.releasing <==> o' in s.releasing)
    requires ViewOk(o, ViewOf(s', o))
    ensures Inv(s', init)
  {
    LocalStep(s, s', o, init);
  }

  lemma {:induction false} ReserveKeepsInv(s: Sys, o: Id, ord: Order, then': Option<Create>, init: map<Id, nat>)
    requires Inv(s, init) && o in s.creates && (s.creates[o] == Reserving(ord) || s.creates[o] == Abandoned(ord))
    requires then' == None || then' == Some(Saving(ord))
    requires ReserveFor(s, ord).Ok?
    ensures var s1 := s.(ledger := ReserveFor(s, ord).value);
            Inv(if then'.Some? then WithCreate(s1, o, then'.value) else EndCreate(s1, o), init)
  {
    At(s, o, init);
    CountersFine(s, init);
    ViewReserves(o, ViewOf(s, o), ord, then');
    var l' := ReserveFor(s, ord).value;
    ReserveFrame(s.ledger, o, ItemsOf(ord.lines));
    ReserveKeeps(s.ledger, o, ItemsOf(ord.lines), init);
    LedgerViews(s, l', o);
    var s1 := s.(ledger := l');
    CreateViews(s1, o, then');
    LocalStep(s, if then'.Some? then WithCreate(s1, o, then'.value) else EndCreate(s1, o), o, init);
  }

  lemma {:induction false} EndCreateKeeps(s: Sys, o: Id, init: map<Id, nat>)
    requires Inv(s, init)
    ensures Inv(EndCreate(s, o), init)
  {
    At(s, o, init);
    var s' := EndCreate(s, o);
    assert ViewOf(s', o) == ViewOf(s, o).(create := None);
    CreateMoves(s, s', o, init);
  }

  lemma {:induction false} ReserveStepKeeps(s: Sys, o: Id, ord: Order, call: Call, init: map<Id, nat>)
    requires Inv(s, init) && o in s.creates && (s.creates[o] == Reserving(ord) || s.creates[o] == Abandoned(ord))
    ensures Inv(ReserveStep(s, o, ord, call), init)
  {
    EndCreateKeeps(s, o, init);
    if ReserveFor(s, ord).Ok? {
      ReserveKeepsInv(s, o, ord, if call == Answered then Some(Saving(ord)) else None, init);
    }
  }

  lemma {:induction false} SavedTables(t: OrderTables, ord: Order)
    requires SaveOrderTx(t, ord).Ok?
    ensures ord.total >= 0
            && SaveOrderTx(t, ord).value ==
            t.(orders := t.orders[ord.id := ord], outbox := t.outbox + [EventOf(OrderCreated, ord)])
  {
  }

  lemma {:induction false} StoreKeepsInv(s: Sys, o: Id, ord: Order, stored: bool, init: map<Id, nat>)
    requires Inv(s, init) && o in s.creates && s.creates[o] == Saving(ord) && SaveOrderTx(s.db, ord).Ok?
    ensures Inv(WithCreate(s.(db := SaveOrderTx(s.db, ord).value), o, if stored then Marking(ord) else Undoing(ord)),
            init)
  {
    At(s, o, init);
    var c := if stored then Marking(ord) else Undoing(ord);
    var t := SaveOrderTx(s.db, ord).value;
    SavedTables(s.db, ord);
    ViewSaves(o, ViewOf(s, o), ord, stored);
    SaveFrame(s.db, ord);
    DbViews(s, t, o, Some(c));
    LocalStep(s, WithCreate(s.(db := t), o, c), o, init);
  }

  lemma {:induction false} NotStoredKeeps(s: Sys, o: Id, ord: Order, init: map<Id, nat>)
    requires Inv(s, init) && o in s.creates && s.creates[o] == Saving(ord)
    ensures Inv(WithCreate(s, o, Undoing(ord)), init)
  {
    At(s, o, init);
    CreateViews(s, o, Some(Undoing(ord)));
    CreateMoves(s, WithCreate(s, o, Undoing(ord)), o, init);
  }

  lemma {:induction false} SaveStepKeeps(s: Sys, o: Id, ord: Order, save: Call, init: map<Id, nat>)
    requires Inv(s, init) && o in s.creates && s.creates[o] == Saving(ord)
    ensures Inv(SaveStep(s, o, ord, save), init)
  {
    NotStoredKeeps(s, o, ord, init);
    if SaveOrderTx(s.db, ord).Ok? {
      StoreKeepsInv(s, o, ord, save == Answered, init);
    }
  }

  // Executing a release that is in flight, or that a compensating saga asks for.
  lemma {:induction false} ReleaseKeepsInv(s: Sys, o: Id, init: map<Id, nat>)
    requires Inv(s, init) && (o in s.releasing || Undone(ViewOf(s, o).saga))
    ensures Inv(s.(ledger := ReleaseOp(s.ledger, o)), init)
  {
    At(s, o, init);
    var v, s' := ViewOf(s, o), s.(ledger := ReleaseOp(s.ledger, o));
    ReleaseFrame(s.ledger, o);
    ReleaseKeeps(s.ledger, o, init);
    var v' := ViewOf(s', o);
    assert v' == v.(rows := SetStatus(v.rows, o, Released), releases := v'.releases);
    ViewReleases(o, v, v');
    LocalStep(s, s', o, init);
  }

  lemma {:induction false} UndoSentKeeps(s: Sys, o: Id, init: map<Id, nat>)
    requires Inv(s, init) && o in s.creates && s.creates[o].Undoing?
    ensures Inv(EndCreate(s.(releasing := s.releasing + {o}), o), init)
  {
    At(s, o, init);
    var s1 := EndCreate(s.(releasing := s.releasing + {o}), o);
    assert ViewOf(s1, o) == ViewOf(s, o).(create := None, releasing := true);
    CreateMoves(s, s1, o, init);
  }

  lemma {:induction false} UndoKeeps(s: Sys, o: Id, call: Call, init: map<Id, nat>)
    requires Inv(s, init) && o in s.creates && s.creates[o].Undoing?
    ensures Inv(EndCreate(AskedToRelease(s, o, call), o), init)
  {
    UndoSentKeeps(s, o, init);
    if call != Lost {
      ReleaseKeepsInv(EndCreate(s.(releasing := s.releasing + {o}), o), o, init);
    }
  }

  lemma {:induction false} MarkStepKeeps(s: Sys, o: Id, init: map<Id, nat>)
    requires Inv(s, init) && o in s.creates && s.creates[o].Copied?
    ensures Inv(MarkStep(s, o, s.creates[o].order), init)
  {
    var copy := s.creates[o].order;
    EndCreateKeeps(s, o, init);
    At(s, o, init);
    assert ViewOf(s, o).order == Some(copy);
    if MarkPendingTx(s.db, copy).Ok? {
      MarkPendingExact(s.db, copy);
      MarkedKeeps(s, o, copy, init);
    }
  }

  lemma {:induction false} MarkedKeeps(s: Sys, o: Id, copy: Order, init: map<Id, nat>)
    requires Inv(s, init) && o in s.creates && s.creates[o] == Copied(copy)
    requires o in s.db.orders && s.db.orders[o] == copy && copy.id == o
    ensures var e := EventOf(OrderReadyForPayment, copy.(status := PendingPayment));
            var t := Put(s.db, copy.(status := PendingPayment, version := 2), AwaitingPayment, e);
            Inv(EndCreate(s.(db := t), o), init)
  {
    var ord, e := copy.(status := PendingPayment, version := 2),
        EventOf(OrderReadyForPayment, copy.(status := PendingPayment));
    At(s, o, init);
    PutFrame(s.db, ord, AwaitingPayment, e);
    DbViews(s, Put(s.db, ord, AwaitingPayment, e), o, None);
    ViewMarks(o, ViewOf(s, o), copy);
    LocalStep(s, EndCreate(s.(db := Put(s.db, ord, AwaitingPayment, e)), o), o, init);
  }

  lemma {:induction false} ReadForMarkKeeps(s: Sys, o: Id, init: map<Id, nat>)
    requires Inv(s, init) && o in s.creates && s.creates[o].Marking? && o in s.db.orders
    ensures Inv(WithCreate(s, o, Copied(s.db.orders[o])), init)
  {
    At(s, o, init);
    var s' := WithCreate(s, o, Copied(s.db.orders[o]));
    assert ViewOf(s', o) == ViewOf(s, o).(create := Some(Copied(s.db.orders[o])));
    CreateMoves(s, s', o, init);
  }

  lemma {:induction false} AbandonKeeps(s: Sys, o: Id, init: map<Id, nat>)
    requires Inv(s, init) && o in s.creates && s.creates[o].Reserving?
    ensures Inv(WithCreate(s, o, Abandoned(s.creates[o].order)), init)
  {
    At(s, o, init);
    var s' := WithCreate(s, o, Abandoned(s.creates[o].order));
    assert ViewOf(s', o) == ViewOf(s, o).(create := Some(Abandoned(s.creates[o].order)));
    CreateMoves(s, s', o, init);
  }

  lemma {:induction false} CreateStepKeeps(s: Sys, call: CreateCall, o: Id, init: map<Id, nat>)
    requires Inv(s, init) && o in s.creates
    ensures Inv(CreateStep(s, call, o, s.creates[o]), init)
  {
    var c := s.creates[o];
    EndCreateKeeps(s, o, init);
    match call
    case CrashCreate =>
    case CallReserve(reserve) =>
      if c.Reserving? {
        AbandonKeeps(s, o, init);
        ReserveStepKeeps(s, o, c.order, reserve, init);
      }
    case LateReserve => if c.Abandoned? { ReserveStepKeeps(s, o, c.order, Unanswered, init); }
    case SaveOrder(save) =>
      if c.Saving? {
        NotStoredKeeps(s, o, c.order, init);
        SaveStepKeeps(s, o, c.order, save, init);
      }
    case CallUndo(undo) => if c.Undoing? { UndoKeeps(s, o, undo, init); }
    case ReadForMark => if c.Marking? && o in s.db.orders { ReadForMarkKeeps(s, o, init); }
    case Mark => if c.Copied? { MarkStepKeeps(s, o, init); }
  }

  // ---------- handlers ----------

  lemma {:induction false} DeliverToOrdersKeeps(s: Sys, h: Id, i: nat, event: Id, init: map<Id, nat>)
    requires Inv(s, init) && i < |s.payOutbox|
    ensures Inv(DeliverMessage(s, h, s.payOutbox[i], event), init)
  {
    var m := s.payOutbox[i];
    if !(h in s.handlers || (m.kind != EvProcessed && m.kind != EvFailed) || event in s.orderMarks
      || m.order !in s.db.orders) {
      var copy := s.db.orders[m.order];
      if IsTerminal(copy.status) {
        MarkKeeps(s, s.(orderMarks := s.orderMarks + {event}), init);
      } else {
        At(s, m.order, init);
        MessagesForMember(s.payOutbox, i);
        ViewTells(m.order, ViewOf(s, m.order), m);
        if m.kind == EvProcessed {
          WithHandlerKeeps(s, h, Handler(Confirming, Some(event), m.payment, ToConfirm, copy), init);
        } else {
          WithHandlerKeeps(s, h, Handler(Failing, Some(event), m.payment, ToCompensate, copy), init);
        }
      }
    }
  }

  lemma {:induction false} StartCancelKeeps(s: Sys, h: Id, payment: Id, reason: string, init: map<Id, nat>)
    requires Inv(s, init)
    ensures Inv(BeginCancel(s, h, payment, reason), init)
  {
    if BeginCancel(s, h, payment, reason) != s {
      var o := s.streams[payment][0].order;
      CancelStartsWell(s, payment, o, reason, init);
      WithHandlerKeeps(s, h, Handler(Cancelling(reason), None, payment, ToCompensate, s.db.orders[o]), init);
    }
  }

  lemma {:induction false} CancelStartsWell(s: Sys, payment: Id, o: Id, reason: string, init: map<Id, nat>)
    requires Inv(s, init) && payment in s.streams && BelongsTo(s.streams[payment], o)
    requires o in s.db.orders && !IsTerminal(s.db.orders[o].status)
    ensures s.db.orders[o].id == o
    ensures HandlerOk(ViewOf(s, o), Handler(Cancelling(reason), None, payment, ToCompensate, s.db.orders[o]))
  {
    At(s, o, init);
    PayOfIs(s.streams, o, payment);
  }

  // What the order tables hold after a handler's closing transaction.
  function ClosedTables(t: OrderTables, x: Handler, saga: SagaState, kind: OrderEventKind): OrderTables
    requires x.copy.id in t.orders
  {
    var to := Target(x.kind);
    Put(t, t.orders[x.copy.id].(status := to, version := x.copy.version + 1), saga,
        EventOf(kind, x.copy.(status := to)))
  }

  lemma {:induction false} ClosedViews(s: Sys, x: Handler, saga: SagaState, kind: OrderEventKind)
    requires x.copy.id in s.db.orders && s.db.orders[x.copy.id].id == x.copy.id
    ensures var o, s' := x.copy.id, s.(db := ClosedTables(s.db, x, saga, kind));
            OthersSame(s, s', o) && ViewOf(s', o) == Closed(ViewOf(s, o), x, saga, kind)
  {
    var ord := s.db.orders[x.copy.id].(status := Target(x.kind), version := x.copy.version + 1);
    PutFrame(s.db, ord, saga, EventOf(kind, x.copy.(status := Target(x.kind))));
    OrderViews(s, ClosedTables(s.db, x, saga, kind), x.copy.id);
  }

  lemma {:induction false} CloseKeeps(s: Sys, h: Id, x: Handler, saga: SagaState, kind: OrderEventKind,
                                      init: map<Id, nat>)
    requires Inv(s, init) && x.copy.id in s.db.orders && s.db.orders[x.copy.id].id == x.copy.id
    requires var v := ViewOf(s, x.copy.id);
             ViewOk(x.copy.id, Closed(v, x, saga, kind)) && Evolves(v, Closed(v, x, saga, kind))
    ensures Inv(CommitAndEnd(s, h, x, Ok(ClosedTables(s.db, x, saga, kind))), init)
  {
    var o, s' := x.copy.id, s.(db := ClosedTables(s.db, x, saga, kind));
    ClosedViews(s, x, saga, kind);
    LocalStep(s, s', o, init);
    MarkKeeps(s', Marked(s', x), init);
    EndHandlerKeeps(Marked(s', x), h, init);
    EndHandlerKeeps(s, h, init);
  }

  lemma {:induction false} ConfirmKeeps(s: Sys, h: Id, x: Handler, init: map<Id, nat>)
    requires Inv(s, init) && h in s.handlers && s.handlers[h] == x && x.at == ToConfirm
    ensures Inv(CommitAndEnd(s, h, x, ConfirmTx(s.db, x.copy)), init)
  {
    EndHandlerKeeps(s, h, init);
    if ConfirmTx(s.db, x.copy).Ok? {
      assert InFlightOk(s, h);
      At(s, x.copy.id, init);
      ConfirmExact(s.db, x.copy);
      ViewConfirms(x.copy.id, ViewOf(s, x.copy.id), x);
      CloseKeeps(s, h, x, Completed, OrderConfirmed, init);
    }
  }

  lemma {:induction false} FinishKeeps(s: Sys, h: Id, x: Handler, init: map<Id, nat>)
    requires Inv(s, init) && h in s.handlers && s.handlers[h] == x && x.at == ToFinish
    ensures Inv(CommitAndEnd(s, h, x, FinishTx(s.db, x.copy, Target(x.kind))), init)
  {
    EndHandlerKeeps(s, h, init);
    if FinishTx(s.db, x.copy, Target(x.kind)).Ok? {
      assert InFlightOk(s, h);
      At(s, x.copy.id, init);
      FinishExact(s.db, x.copy, Target(x.kind));
      ViewFinishes(x.copy.id, ViewOf(s, x.copy.id), x);
      CloseKeeps(s, h, x, Compensated, OrderCancelled, init);
    }
  }

  lemma {:induction false} SagaViews(s: Sys, o: Id, saga: SagaState)
    ensures var s' := s.(db := s.db.(sagas := s.db.sagas[o := saga]));
            OthersSame(s, s', o) && ViewOf(s', o) == ViewOf(s, o).(saga := Some(saga))
  {
  }

  lemma {:induction false} ViewCompensates(o: Id, v: View, x: Handler)
    requires ViewOk(o, v) && HandlerOk(v, x) && (v.saga == Some(AwaitingPayment) || v.saga == Some(Compensating))
    ensures var v' := v.(saga := Some(Compensating));
            ViewOk(o, v') && Evolves(v, v')
  {
  }

  lemma {:induction false} CompensateKeeps(s: Sys, h: Id, x: Handler, init: map<Id, nat>)
    requires Inv(s, init) && h in s.handlers && s.handlers[h] == x && x.at == ToCompensate
    ensures Inv(CompensateStep(s, h, x), init)
  {
    EndHandlerKeeps(s, h, init);
    var o := x.copy.id;
    if CompensateTx(s.db, o).Ok? {
      assert InFlightOk(s, h);
      At(s, o, init);
      CompensateExact(s.db, o);
      var s1 := s.(db := s.db.(sagas := s.db.sagas[o := Compensating]));
      ViewCompensates(o, ViewOf(s, o), x);
      SagaViews(s, o, Compensating);
      LocalStep(s, s1, o, init);
      WithHandlerKeeps(s1, h, x.(at := if x.kind.Cancelling? then ToRefund else ToRelease), init);
    }
  }

  lemma {:induction false} SendReleaseKeeps(s: Sys, o: Id, init: map<Id, nat>)
    requires Inv(s, init) && Undone(ViewOf(s, o).saga)
    ensures Inv(s.(releasing := s.releasing + {o}), init)
  {
    At(s, o, init);
    var s' := s.(releasing := s.releasing + {o});
    assert ViewOf(s', o) == ViewOf(s, o).(releasing := true);
    CreateMoves(s, s', o, init);
  }

  lemma {:induction false} ViewReleasesAll(o: Id, v: View)
    requires ViewOk(o, v) && Undone(v.saga)
    ensures v.order.Some? && SetStatus(v.rows, o, Released) == NewRows(o, HeldItems(v.order.value), Released)
            && v.order.value.id == o
  {
    SetStatusUniform(o, HeldItems(v.order.value), Reserved, Released);
    SetStatusUniform(o, HeldItems(v.order.value), Released, Released);
  }

  // Once compensating, an executed release leaves every row of the order released.
  lemma {:induction false} ReleasedAll(s: Sys, o: Id, init: map<Id, nat>)
    requires Inv(s, init) && Undone(ViewOf(s, o).saga)
    ensures var v' := ViewOf(s.(ledger := ReleaseOp(s.ledger, o)), o);
            v'.order.Some? && Holds(v', v'.order.value, Released)
  {
    At(s, o, init);
    ReleaseFrame(s.ledger, o);
    ViewReleasesAll(o, ViewOf(s, o));
  }

  lemma {:induction false} ReleaseSentKeeps(s: Sys, h: Id, x: Handler, init: map<Id, nat>)
    requires Inv(s, init) && h in s.handlers && s.handlers[h] == x && x.at == ToRelease
    ensures var s0 := s.(releasing := s.releasing + {x.copy.id});
            Inv(s0, init) && Undone(ViewOf(s0, x.copy.id).saga)
  {
    assert InFlightOk(s, h);
    SendReleaseKeeps(s, x.copy.id, init);
  }

  lemma {:induction false} AnsweredReleaseKeeps(s: Sys, h: Id, x: Handler, init: map<Id, nat>)
    requires Inv(s, init) && h in s.handlers && s.handlers[h] == x && x.at == ToRelease
    ensures Inv(WithHandler(AskedToRelease(s, x.copy.id, Answered), h, x.(at := ToFinish)), init)
  {
    var o := x.copy.id;
    var s0 := s.(releasing := s.releasing + {o});
    ReleaseSentKeeps(s, h, x, init);
    ReleaseKeepsInv(s0, o, init);
    assert InFlightOk(s0.(ledger := ReleaseOp(s0.ledger, o)), h);
    ReleasedAll(s0, o, init);
    assert AskedToRelease(s, o, Answered) == s0.(ledger := ReleaseOp(s0.ledger, o));
    WithHandlerKeeps(s0.(ledger := ReleaseOp(s0.ledger, o)), h, x.(at := ToFinish), init);
  }

  lemma {:induction false} UnansweredReleaseKeeps(s: Sys, h: Id, x: Handler, call: Call, init: map<Id, nat>)
    requires Inv(s, init) && h in s.handlers && s.handlers[h] == x && x.at == ToRelease
    ensures Inv(EndHandler(AskedToRelease(s, x.copy.id, call), h), init)
  {
    var o := x.copy.id;
    var s0 := s.(releasing := s.releasing + {o});
    ReleaseSentKeeps(s, h, x, init);
    EndHandlerKeeps(s0, h, init);
    if call != Lost {
      ReleaseKeepsInv(s0, o, init);
      EndHandlerKeeps(s0.(ledger := ReleaseOp(s0.ledger, o)), h, init);
    }
  }

  lemma {:induction false} CallReleaseKeeps(s: Sys, h: Id, x: Handler, call: Call, init: map<Id, nat>)
    requires Inv(s, init) && h in s.handlers && s.handlers[h] == x && x.at == ToRelease
    ensures Inv(ReleaseStep(s, h, x, call), init)
  {
    if call == Answered {
      AnsweredReleaseKeeps(s, h, x, init);
    } else {
      UnansweredReleaseKeeps(s, h, x, call, init);
    }
  }

  // ---------- refunds ----------

  lemma {:induction false} AskedViews(s: Sys, o: Id, payment: Id)
    requires OnePerOrder(s.streams) && ViewOf(s, o).pay.Some? && ViewOf(s, o).pay.value.id == payment
    ensures var s' := s.(refunding := s.refunding + {payment});
            OthersSame(s, s', o) && ViewOf(s', o) == ViewOf(s, o).(refunding := true)
  {
    var s' := s.(refunding := s.refunding + {payment});
    forall o': Id | o' != o ensures ViewOf(s', o') == ViewOf(s, o') {
      OtherPayment(s.streams, o, o', payment);
    }
  }

  lemma {:induction false} SendRefundKeeps(s: Sys, o: Id, payment: Id, init: map<Id, nat>)
    requires Inv(s, init) && Undone(ViewOf(s, o).saga)
    requires ViewOf(s, o).pay.Some? && ViewOf(s, o).pay.value.id == payment
    ensures Inv(s.(refunding := s.refunding + {payment}), init)
  {
    At(s, o, init);
    var s' := s.(refunding := s.refunding + {payment});
    AskedViews(s, o, payment);
    LocalStep(s, s', o, init);
  }

  lemma {:induction false} OtherPayment(streams: Streams, o: Id, o': Id, payment: Id)
    requires o' != o && PayOf(streams, o).Some? && PayOf(streams, o).value.id == payment
    ensures PayOf(streams, o').Some? ==> PayOf(streams, o').value.id != payment
  {
  }

  lemma {:induction false} RefundShape(s: Sys, payment: Id, reason: string)
    requires StreamsLegal(s.streams) && OnePerOrder(s.streams) && payment in s.streams
             && Refunded(s, payment, reason).Ok?
    ensures P.Captured(s.streams[payment])
    ensures var e := P.PaymentRefunded(payment, s.streams[payment][0].amount, reason);
            var es := s.streams[payment] + [e];
            && P.Legal(payment, es)
            && Refunded(s, payment, reason).value == s.(streams := s.streams[payment := es], payOutbox := s.payOutbox
               + [MessageOf(P.Replay(P.ZERO, es), e)])
            && MessageOf(P.Replay(P.ZERO, es), e).order == es[0].order
               && MessageOf(P.Replay(P.ZERO, es), e).payment == payment
  {
    var es0 := s.streams[payment];
    P.LegalState(payment, es0);
    P.CommandsAreLifecycle(payment, es0, P.Refund(reason));
    var es := es0 + [P.PaymentRefunded(payment, es0[0].amount, reason)];
    P.LegalState(payment, es);
  }

  // What an executed refund does to the shares.
  lemma {:induction false} RefundViews(s: Sys, payment: Id, reason: string)
    requires StreamsLegal(s.streams) && OnePerOrder(s.streams) && payment in s.refunding
             && s.refunding <= s.streams.Keys && Refunded(s, payment, reason).Ok?
    ensures s.streams[payment][0].PaymentInitiated?
    ensures var o, s' := s.streams[payment][0].order, Refunded(s, payment, reason).value;
            && |s'.payOutbox| == |s.payOutbox| + 1 && payment in s'.streams
            && OthersSame(s, s', o)
            && ViewOf(s, o).pay == Some(Pay(payment, s.streams[payment])) && ViewOf(s, o).refunding
            && ViewOf(s', o) == ViewOf(s, o).(pay := Some(Pay(payment, s'.streams[payment])),
               msgs := ViewOf(s, o).msgs + [s'.payOutbox[|s.payOutbox|]])
  {
    var s' := Refunded(s, payment, reason).value;
    RefundShape(s, payment, reason);
    RefundKeeps(s.streams, payment, reason);
    var o := s.streams[payment][0].order;
    PayOfIs(s.streams, o, payment);
    StreamViews(s, o, payment, s'.streams[payment], [s'.payOutbox[|s.payOutbox|]]);
  }

  lemma {:induction false} RefundedViews(s: Sys, payment: Id, reason: string, init: map<Id, nat>)
    requires Inv(s, init) && payment in s.refunding && Refunded(s, payment, reason).Ok?
    ensures var o, s' := s.streams[payment][0].order, Refunded(s, payment, reason).value;
            && OthersSame(s, s', o) && ViewOk(o, ViewOf(s', o)) && Evolves(ViewOf(s, o), ViewOf(s', o))
            && ViewOf(s', o).pay == Some(Pay(payment, s'.streams[payment])) && P.WasRefunded(s'.streams[payment])
  {
    var o, s' := s.streams[payment][0].order, Refunded(s, payment, reason).value;
    RefundShape(s, payment, reason);
    RefundViews(s, payment, reason);
    At(s, o, init);
    ViewRefunds(o, ViewOf(s, o), payment, s'.streams[payment], s'.payOutbox[|s.payOutbox|]);
  }

  lemma {:induction false} RefundKeepsInv(s: Sys, payment: Id, reason: string, init: map<Id, nat>)
    requires Inv(s, init) && payment in s.refunding && Refunded(s, payment, reason).Ok?
    ensures Inv(Refunded(s, payment, reason).value, init)
    ensures var o := s.streams[payment][0].order;
            var v' := ViewOf(Refunded(s, payment, reason).value, o);
            v'.pay.Some? && v'.pay.value.id == payment && P.WasRefunded(v'.pay.value.es) && Evolves(ViewOf(s, o), v')
  {
    RefundShape(s, payment, reason);
    RefundKeeps(s.streams, payment, reason);
    RefundedViews(s, payment, reason, init);
    LocalStep(s, Refunded(s, payment, reason).value, s.streams[payment][0].order, init);
  }

  // The refund was sent; the handler that sent it is still in good standing.
  lemma {:induction false} RefundSentKeeps(s: Sys, h: Id, x: Handler, init: map<Id, nat>)
    requires Inv(s, init) && h in s.handlers && s.handlers[h] == x && x.at == ToRefund
    ensures var s1 := s.(refunding := s.refunding + {x.payment});
            Inv(s1, init) && Inv(EndHandler(s1, h), init) && HandlerOk(ViewOf(s1, x.copy.id), x)
  {
    assert InFlightOk(s, h);
    var s1 := s.(refunding := s.refunding + {x.payment});
    SendRefundKeeps(s, x.copy.id, x.payment, init);
    EndHandlerKeeps(s1, h, init);
    assert InFlightOk(s1, h);
  }

  lemma {:induction false} AfterRefundKeeps(s: Sys, h: Id, x: Handler, call: Call, refunded: Result<Sys>,
                                            init: map<Id, nat>)
    requires Inv(EndHandler(s, h), init)
    requires refunded.Ok? ==> Inv(EndHandler(refunded.value, h), init)
    requires refunded.Ok? ==> Inv(WithHandler(refunded.value, h, x.(at := ToRelease)), init)
    ensures Inv(AfterRefund(s, h, x, call, refunded), init)
  {
  }

  lemma {:induction false} CallRefundKeeps(s: Sys, h: Id, x: Handler, call: Call, init: map<Id, nat>)
    requires Inv(s, init) && h in s.handlers && s.handlers[h] == x && x.at == ToRefund && x.kind.Cancelling?
    ensures Inv(RefundStep(s, h, x, call), init)
  {
    var s1 := s.(refunding := s.refunding + {x.payment});
    var refunded := Refunded(s1, x.payment, x.kind.reason);
    RefundSentKeeps(s, h, x, init);
    if refunded.Ok? {
      ExecutedRefundKeeps(s1, h, x, init);
    }
    AfterRefundKeeps(s1, h, x, call, refunded, init);
  }

  lemma {:induction false} ExecutedRefundKeeps(s: Sys, h: Id, x: Handler, init: map<Id, nat>)
    requires Inv(s, init) && HandlerOk(ViewOf(s, x.copy.id), x)
    requires x.at == ToRefund && x.kind.Cancelling? && x.payment in s.refunding
    requires Refunded(s, x.payment, x.kind.reason).Ok?
    ensures var s' := Refunded(s, x.payment, x.kind.reason).value;
            Inv(EndHandler(s', h), init) && Inv(WithHandler(s', h, x.(at := ToRelease)), init)
  {
    var s' := Refunded(s, x.payment, x.kind.reason).value;
    At(s, x.copy.id, init);
    RefundKeepsInv(s, x.payment, x.kind.reason, init);
    assert s.streams[x.payment][0].order == x.copy.id;
    EndHandlerKeeps(s', h, init);
    WithHandlerKeeps(s', h, x.(at := ToRelease), init);
  }

  lemma {:induction false} HandlerStepKeeps(s: Sys, call: HandlerCall, h: Id, init: map<Id, nat>)
    requires Inv(s, init) && h in s.handlers
    ensures Inv(HandlerStep(s, call, h, s.handlers[h]), init)
  {
    var x := s.handlers[h];
    match call
    case CrashHandler => EndHandlerKeeps(s, h, init);
    case Confirm => if x.at == ToConfirm { ConfirmKeeps(s, h, x, init); }
    case Compensate => if x.at == ToCompensate { CompensateKeeps(s, h, x, init); }
    case CallRefund(refund) => if x.at == ToRefund && x.kind.Cancelling? { CallRefundKeeps(s, h, x, refund, init); }
    case CallRelease(release) => if x.at == ToRelease { CallReleaseKeeps(s, h, x, release, init); }
    case Finish => if x.at == ToFinish { FinishKeeps(s, h, x, init); }
  }

  // ---------- the payment and inventory consumers ----------

  lemma {:induction false} ReadyMeansPendingPayment(s: Sys, i: nat, init: map<Id, nat>)
    requires Inv(s, init) && i < |s.db.outbox|
    ensures var e := s.db.outbox[i];
            var v := ViewOf(s, e.order);
            && v.order.Some? && e.order == v.order.value.id
            && (e.kind == OrderReadyForPayment ==>
                  v.order.value.status != Pending && e.customer == v.order.value.customer
                      && e.total == v.order.value.total && e.currency == v.order.value.currency)
            && (e.kind == OrderConfirmed ==> v.order.value.status == Confirmed)
            && (e.kind == OrderCancelled ==>
                  v.order.value.status == Status.PaymentFailed || v.order.value.status == Cancelled)
  {
    var e := s.db.outbox[i];
    At(s, e.order, init);
    EventsForMember(s.db.outbox, i);
    ViewAnnounces(e.order, ViewOf(s, e.order), e);
  }

  lemma {:induction false} ChargeShape(s: Sys, e: OrderEvent, freshId: Id, breakerOpen: bool)
    requires StreamsLegal(s.streams) && OnePerOrder(s.streams) && freshId !in s.streams
    ensures var c := ProcessPayment(s.streams, e.order, e.customer, e.total, e.currency, freshId, breakerOpen, false);
            freshId in c.streams ==>
              && !HasPayment(s.streams, e.order)
              && var es := c.streams[freshId];
                 var msgs := MessagesUpTo(P.Replay(P.ZERO, es), es, |es|);
                 && c.streams == s.streams[freshId := es] && P.Legal(freshId, es) && |es| == 2 && |msgs| == 2
                 && es[0] == P.PaymentInitiated(freshId, e.order, e.customer, e.total, e.currency)
                 && (es[1].PaymentProcessed? || es[1].PaymentDeclined?)
                 && (es[1].PaymentProcessed? ==> e.total <= GATEWAY_MAX_CENTS)
                 && forall j | 0 <= j < 2 ::
                      msgs[j].kind == KindOf(es[j]) && msgs[j].payment == freshId && msgs[j].order == e.order
  {
    var c := ProcessPayment(s.streams, e.order, e.customer, e.total, e.currency, freshId, breakerOpen, false);
    if freshId in c.streams {
      ProcessKeeps(s.streams, e.order, e.customer, e.total, e.currency, freshId, breakerOpen, false);
      var es := c.streams[freshId];
      P.LegalState(freshId, es);
      var st := P.Replay(P.ZERO, es);
      assert MessagesUpTo(st, es, 2) == MessagesUpTo(st, es, 1) + [MessageOf(st, es[1])];
      assert MessagesUpTo(st, es, 1) == MessagesUpTo(st, es, 0) + [MessageOf(st, es[0])];
    }
  }

  lemma {:induction false} DeliverToPaymentKeeps(s: Sys, i: nat, event: Id, freshId: Id, breakerOpen: bool,
                                                 marks: bool, init: map<Id, nat>)
    requires Inv(s, init) && i < |s.db.outbox|
    ensures Inv(ChargeFor(s, s.db.outbox[i], event, freshId, breakerOpen, marks), init)
  {
    var e := s.db.outbox[i];
    if !(e.kind != OrderReadyForPayment || event in s.payMarks || freshId in s.streams || freshId == NIL) {
      var c := ProcessPayment(s.streams, e.order, e.customer, e.total, e.currency, freshId, breakerOpen, false);
      ChargeShape(s, e, freshId, breakerOpen);
      var s1 := s;
      if freshId in c.streams {
        var es := c.streams[freshId];
        s1 := s.(streams := c.streams, payOutbox := s.payOutbox + MessagesUpTo(P.Replay(P.ZERO, es), es, |es|));
        NewPaymentKeeps(s, i, freshId, es, MessagesUpTo(P.Replay(P.ZERO, es), es, |es|), init);
      }
      MarkKeeps(s1, ChargeFor(s, e, event, freshId, breakerOpen, marks), init);
    }
  }

  lemma {:induction false} NewPaymentKeeps(s: Sys, i: nat, id: Id, es: seq<P.Event>, msgs: seq<PayMessage>,
                                           init: map<Id, nat>)
    requires Inv(s, init) && i < |s.db.outbox| && s.db.outbox[i].kind == OrderReadyForPayment
    requires id !in s.streams && P.Legal(id, es) && |es| == 2 && |msgs| == 2
    requires var e := s.db.outbox[i];
             && !HasPayment(s.streams, e.order)
             && es[0] == P.PaymentInitiated(id, e.order, e.customer, e.total, e.currency)
             && (es[1].PaymentProcessed? || es[1].PaymentDeclined?)
             && (es[1].PaymentProcessed? ==> e.total <= GATEWAY_MAX_CENTS)
             && forall j | 0 <= j < 2 ::
                  msgs[j].kind == KindOf(es[j]) && msgs[j].payment == id && msgs[j].order == e.order
    ensures Inv(s.(streams := s.streams[id := es], payOutbox := s.payOutbox + msgs), init)
  {
    var o := s.db.outbox[i].order;
    var s' := s.(streams := s.streams[id := es], payOutbox := s.payOutbox + msgs);
    ReadyMeansPendingPayment(s, i, init);
    At(s, o, init);
    var v := ViewOf(s, o);
    assert id !in s.refunding;
    ViewPays(o, v, id, es, msgs);
    StreamViews(s, o, id, es, msgs);
    LocalStep(s, s', o, init);
  }

  lemma {:induction false} DeliverToStockKeeps(s: Sys, i: nat, event: Id, init: map<Id, nat>)
    requires Inv(s, init) && i < |s.db.outbox|
    ensures Inv(StockReacts(s, s.db.outbox[i], event), init)
  {
    var e := s.db.outbox[i];
    if event !in s.stockMarks {
      var s1 := s.(ledger := ReactToOrder(s.ledger, e.kind, e.order));
      StockReactionKeeps(s, i, init);
      MarkKeeps(s1, StockReacts(s, e, event), init);
    }
  }

  lemma {:induction false} StockReactionKeeps(s: Sys, i: nat, init: map<Id, nat>)
    requires Inv(s, init) && i < |s.db.outbox|
    ensures Inv(s.(ledger := ReactToOrder(s.ledger, s.db.outbox[i].kind, s.db.outbox[i].order)), init)
  {
    var e := s.db.outbox[i];
    var o := e.order;
    ReadyMeansPendingPayment(s, i, init);
    At(s, o, init);
    if e.kind == OrderCancelled {
      ReleaseKeepsInv(s, o, init);
    } else if e.kind == OrderConfirmed {
      CommitKeepsInv(s, o, init);
    }
  }

  lemma {:induction false} CommitKeepsInv(s: Sys, o: Id, init: map<Id, nat>)
    requires Inv(s, init) && o in s.db.orders && s.db.orders[o].status == Confirmed
    ensures Inv(s.(ledger := CommitOp(s.ledger, o)), init)
  {
    At(s, o, init);
    var s' := s.(ledger := CommitOp(s.ledger, o));
    var v, v' := ViewOf(s, o), ViewOf(s', o);
    CommitFrame(s.ledger, o);
    CommitKeeps(s.ledger, o, init);
    assert v' == v.(rows := SetStatus(v.rows, o, RowStatus.Committed), sales := v'.sales);
    ViewCommits(o, v, v');
    LocalStep(s, s', o, init);
  }

  // ---------- all steps, all runs ----------

  lemma {:induction false} StepKeeps(s: Sys, step: Step, init: map<Id, nat>)
    requires Inv(s, init)
    ensures Inv(Next(s, step), init)
  {
    match step
    case BeginCreate(ord) => BeginCreateKeeps(s, ord, init);
    case Creating(o, call) => if o in s.creates { CreateStepKeeps(s, call, o, init); }
    case DeliverToOrders(h, i, event) => if i < |s.payOutbox| { DeliverToOrdersKeeps(s, h, i, event, init); }
    case StartCancel(h, payment, reason) => StartCancelKeeps(s, h, payment, reason, init);
    case Handling(h, call) => if h in s.handlers { HandlerStepKeeps(s, call, h, init); }
    case LateRelease(o) => if o in s.releasing { ReleaseKeepsInv(s, o, init); }
    case LateRefund(payment, reason) =>
      if payment in s.refunding && Refunded(s, payment, reason).Ok? { RefundKeepsInv(s, payment, reason, init); }
    case DeliverToPayment(i, event, freshId, breakerOpen, marks) =>
      if i < |s.db.outbox| { DeliverToPaymentKeeps(s, i, event, freshId, breakerOpen, marks, init); }
    case DeliverToStock(i, event) => if i < |s.db.outbox| { DeliverToStockKeeps(s, i, event, init); }
  }

  lemma {:induction false} InitialOk(s: Sys, init: map<Id, nat>)
    requires Initial(s, init)
    ensures Inv(s, init)
  {
    EmptyLedgerOk(s.ledger, init);
    forall o: Id ensures ViewOk(o, ViewOf(s, o)) {
      assert ViewOf(s, o) == View(None, None, [], [], 0, 0, None, [], None, false, false, false);
    }
  }

  // Every interleaving of handler steps, crashes, lost and late calls, redeliveries and reorderings.
  lemma {:induction false} Reachable(s: Sys, steps: seq<Step>, init: map<Id, nat>)
    requires Initial(s, init)
    ensures Inv(Run(s, steps), init)
  {
    if |steps| == 0 {
      InitialOk(s, init);
    } else {
      Reachable(s, steps[..|steps| - 1], init);
      StepKeeps(Run(s, steps[..|steps| - 1]), steps[|steps| - 1], init);
    }
  }
}
