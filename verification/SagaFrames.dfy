/** Each table operation touches one order's share of the state, and how. */
module SagaFrames {
  import opened Common
  import opened Orders
  import opened EventStore
  import opened PaymentService
  import opened SagaInvariant
  import P = Payment

  // ---------- filters of the outboxes ----------

  lemma {:induction false} EventsForAppend(a: seq<OrderEvent>, e: OrderEvent, o: Id)
    ensures EventsFor(a + [e], o) == EventsFor(a, o) + if e.order == o then [e] else []
  {
    assert (a + [e])[..|a|] == a;
  }

  lemma {:induction false} EventsForMember(a: seq<OrderEvent>, i: nat)
    requires i < |a|
    ensures a[i] in EventsFor(a, a[i].order)
  {
    var front := a[..|a| - 1];
    if i < |front| {
      assert front[i] == a[i];
      EventsForMember(front, i);
    }
  }

  lemma {:induction false} MessagesForAppend(a: seq<PayMessage>, b: seq<PayMessage>, o: Id)
    requires forall i | 0 <= i < |b| :: b[i].order == o
    ensures MessagesFor(a + b, o) == MessagesFor(a, o) + b
    ensures forall o': Id | o' != o :: MessagesFor(a + b, o') == MessagesFor(a, o')
  {
    if |b| == 0 {
      assert a + b == a;
    } else {
      MessagesForAppend(a, b[..|b| - 1], o);
      assert (a + b)[..|a + b| - 1] == a + b[..|b| - 1];
      assert b == b[..|b| - 1] + [b[|b| - 1]];
    }
  }

  lemma {:induction false} MessagesForMember(a: seq<PayMessage>, i: nat)
    requires i < |a|
    ensures a[i] in MessagesFor(a, a[i].order)
  {
    var front := a[..|a| - 1];
    if i < |front| {
      assert front[i] == a[i];
      MessagesForMember(front, i);
    }
  }

  // ---------- order tables ----------

  ghost predicate DbFrame(t: OrderTables, t': OrderTables, o: Id) {
    forall o': Id | o' != o ::
      && Lookup(t'.orders, o') == Lookup(t.orders, o')
      && Lookup(t'.sagas, o') == Lookup(t.sagas, o')
      && EventsFor(t'.outbox, o') == EventsFor(t.outbox, o')
  }

  lemma {:induction false} PutFrame(t: OrderTables, ord: Order, saga: SagaState, e: OrderEvent)
    requires e.order == ord.id
    ensures DbFrame(t, Put(t, ord, saga, e), ord.id)
    ensures EventsFor(Put(t, ord, saga, e).outbox, ord.id) == EventsFor(t.outbox, ord.id) + [e]
  {
    forall o: Id ensures EventsFor(t.outbox + [e], o) == EventsFor(t.outbox, o) + if e.order == o then [e] else [] {
      EventsForAppend(t.outbox, e, o);
    }
  }

  lemma {:induction false} SaveFrame(t: OrderTables, ord: Order)
    requires SaveOrderTx(t, ord).Ok?
    ensures DbFrame(t, SaveOrderTx(t, ord).value, ord.id)
    ensures EventsFor(SaveOrderTx(t, ord).value.outbox, ord.id) == EventsFor(t.outbox, ord.id)
            + [EventOf(OrderCreated, ord)]
  {
    var e := EventOf(OrderCreated, ord);
    forall o: Id ensures EventsFor(t.outbox + [e], o) == EventsFor(t.outbox, o) + if e.order == o then [e] else [] {
      EventsForAppend(t.outbox, e, o);
    }
  }

  // ---------- payment streams ----------

  ghost predicate PayFrame(a: Streams, a': Streams, o: Id) {
    forall o': Id | o' != o :: PayOf(a', o') == PayOf(a, o')
  }

  lemma {:induction false} PayOfIs(streams: Streams, o: Id, id: Id)
    requires OnePerOrder(streams) && id in streams && BelongsTo(streams[id], o)
    ensures PayOf(streams, o) == Some(Pay(id, streams[id]))
  {
  }

  // Adding a stream for an order, or extending its stream, changes that order's payment only.
  lemma {:induction false} PutStreamFrame(a: Streams, id: Id, es: seq<P.Event>, o: Id)
    requires OnePerOrder(a) && OnePerOrder(a[id := es]) && BelongsTo(es, o)
    requires id in a ==> BelongsTo(a[id], o)
    ensures PayFrame(a, a[id := es], o) && PayOf(a[id := es], o) == Some(Pay(id, es))
  {
    var a' := a[id := es];
    PayOfIs(a', o, id);
    forall o': Id | o' != o ensures PayOf(a', o') == PayOf(a, o') {
      if x :| x in a && BelongsTo(a[x], o') {
        assert x != id && a'[x] == a[x];
        PayOfIs(a, o', x);
        PayOfIs(a', o', x);
      } else {
        assert forall x | x in a' :: !BelongsTo(a'[x], o');
      }
    }
  }
}
