/** The payment repository and service as objects: tables updated in place, one loop per statement
    group of the source, proved against the transaction function and the streams. */
module PaymentRepository {
  import opened Common
  import opened Payment
  import opened EventStore
  import opened PaymentService

  class Repository {
    var events: map<Key, Event>
    var snapshots: map<Key, State>
    var status: map<Id, StatusRow>
    var outbox: seq<PayMessage>
    ghost var streams: Streams

    function Tables(): Store
      reads this
    {
      Store(events, snapshots, status, outbox)
    }

    ghost predicate Valid()
      reads this
    {
      StoreInv(Tables(), streams)
    }

    constructor ()
      ensures Valid() && streams == map[] && Tables() == EMPTY
    {
      events, snapshots, status, outbox := map[], map[], map[], [];
      streams := map[];
    }

    // The aggregate id of a payment initiated for the order, if any was.
    method FindByOrderID(o: Id) returns (id: Option<Id>)
      requires Valid()
      ensures id.None? <==> !HasPayment(streams, o)
      ensures id.Some? ==> id.value in streams && BelongsTo(streams[id.value], o)
    {
      if k :| k in events && events[k].PaymentInitiated? && events[k].order == o {
        id := Some(k.id);
        InitiatedRowIsFirst(Tables(), streams, k);
      } else {
        id := None;
        forall i | i in streams ensures !BelongsTo(streams[i], o) {
          assert RowsAreStream(events, i, StreamOf(streams, i));
          assert Legal(i, streams[i]);
          assert Key(i, 1) in events;
        }
      }
    }

    method LatestSnapshot(id: Id) returns (k: Option<Key>)
      ensures k.Some? ==> k.value in snapshots && k.value.id == id
      ensures forall j | j in snapshots && j.id == id :: k.Some? && j.version <= k.value.version
    {
      k := None;
      var left := snapshots.Keys;
      while left != {}
        invariant left <= snapshots.Keys
        invariant k.Some? ==> k.value in snapshots && k.value.id == id
        invariant forall j | j in snapshots && j !in left && j.id == id :: k.Some? && j.version <= k.value.version
        decreases |left|
      {
        var j :| j in left;
        left := left - {j};
        if j.id == id && (k.None? || k.value.version < j.version) {
          k := Some(j);
        }
      }
    }

    // The aggregate its whole stream describes, read as a snapshot and the events after it.
    method Load(id: Id) returns (r: Outcome, p: Aggregate)
      requires Valid()
      ensures fresh(p)
      ensures r == if id in streams && id != NIL then Done else Failed(NotFound)
      ensures r == Done ==> p.state == Replay(ZERO, streams[id]) && p.pending == [] && p.state.id == id
    {
      ghost var es := StreamOf(streams, id);
      var k := LatestSnapshot(id);
      var from := 0;
      if k.Some? {
        p := new Aggregate.FromSnapshot(snapshots[k.value]);
        from := k.value.version;
      } else {
        p := new Aggregate();
      }
      assert RowsAreStream(events, id, es);
      ReplayAfter(id, from, p, es);
      p.ClearPendingEvents();
      if id in streams {
        LegalState(id, es);
      }
      r := if p.state.id == NIL then Failed(NotFound) else Done;
    }

    // Applies the events recorded after a version, in version order.
    method ReplayAfter(id: Id, from: nat, p: Aggregate, ghost es: seq<Event>)
      requires RowsAreStream(events, id, es) && from <= |es| && p.state == Replay(ZERO, es[..from])
      modifies p
      ensures p.state == Replay(ZERO, es)
    {
      var v := from;
      while Key(id, v + 1) in events
        invariant from <= v <= |es|
        invariant p.state == Replay(ZERO, es[..v])
        decreases |es| - v
      {
        assert es[..v + 1][..v] == es[..v];
        p.Apply(events[Key(id, v + 1)]);
        v := v + 1;
      }
      assert es[..|es|] == es;
    }

    method Rollback(saved: Store)
      modifies this`events, this`snapshots, this`status, this`outbox
      ensures Tables() == saved
    {
      events, snapshots, status, outbox := saved.events, saved.snapshots, saved.status, saved.outbox;
    }

    // Appends events as consecutive versions; a collision is left to the caller's rollback.
    method Append(id: Id, expected: nat, es: seq<Event>) returns (r: Outcome)
      modifies this`events
      ensures match AppendUpTo(old(events), id, expected, es, |es|)
              case Ok(t) => r == Done && events == t
              case Err(e) => r == Failed(e)
    {
      for i := 0 to |es|
        invariant AppendUpTo(old(events), id, expected, es, i) == Ok(events)
      {
        if Key(id, expected + i + 1) in events {
          AppendSticks(old(events), id, expected, es, i + 1, |es|);
          return Failed(Conflict);
        }
        events := events[Key(id, expected + i + 1) := es[i]];
      }
      r := Done;
    }

    // The Save transaction for a non-empty batch of events.
    method SaveRows(s: State, news: seq<Event>) returns (r: Outcome)
      requires 0 < |news| <= s.version
      modifies this`events, this`snapshots, this`status, this`outbox
      ensures match SaveTx(old(Tables()), s, news)
              case Ok(t) => r == Done && Tables() == t
              case Err(e) => r == Failed(e) && Tables() == old(Tables())
    {
      var saved := Tables();
      r := Append(s.id, s.version - |news|, news);
      if r.Failed? {
        Rollback(saved);
        return;
      }
      Project(s, news);
      EnqueueAll(s, news);
      if s.version % SNAPSHOT_THRESHOLD == 0 {
        if Key(s.id, s.version) in snapshots {
          Rollback(saved);
          return Failed(Constraint);
        }
        snapshots := snapshots[Key(s.id, s.version) := s];
      }
    }

    // One optimistic append: the events, their upserts and their outbox rows are stored together or not
    // at all. The aggregate is one that Load or Initiate made and commands changed.
    method Save(p: Aggregate) returns (r: Outcome)
      requires Valid() && Tracks(streams, p.state, p.pending)
      modifies this, p`pending
      ensures Valid()
      ensures r.Failed? ==>
                r == Failed(Conflict) && Tables() == old(Tables()) && streams == old(streams)
                && p.pending == old(p.pending)
      ensures r == Done ==> SaveTx(old(Tables()), p.state, old(p.pending)) == Ok(Tables()) && p.pending == []
      ensures r == Done ==> streams == Extended(old(streams), p.state.id, old(p.pending))
      ensures r == Done <==>
                |old(p.pending)| == 0 || p.state.version - |old(p.pending)| == |StreamOf(old(streams), p.state.id)|
    {
      var news := p.pending;
      if |news| == 0 {
        return Done;
      }
      ghost var saved := Tables();
      r := SaveRows(p.state, news);
      SaveOutcome(saved, Tables(), r, streams, p.state, news);
      if r == Done {
        streams := Extended(streams, p.state.id, news);
        p.ClearPendingEvents();
      }
    }

    method Project(s: State, es: seq<Event>)
      requires |es| > 0
      modifies this`status
      ensures status == old(status)[s.id := ProjectUpTo(StatusOf(old(Tables()), s.id), s, es, |es|).value]
    {
      ghost var before := Tables();
      for i := 0 to |es|
        invariant i == 0 ==> status == before.status
        invariant i > 0 ==> status == before.status[s.id := ProjectUpTo(StatusOf(before, s.id), s, es, i).value]
      {
        var row := if s.id in status then Some(status[s.id]) else None;
        status := status[s.id := Upsert(row, s, es[i])];
      }
    }

    method EnqueueAll(s: State, es: seq<Event>)
      modifies this`outbox
      ensures outbox == old(outbox) + MessagesUpTo(s, es, |es|)
    {
      for i := 0 to |es|
        invariant outbox == old(outbox) + MessagesUpTo(s, es, i)
      {
        outbox := outbox + [MessageOf(s, es[i])];
      }
    }
  }

  // The Save transaction and the streams: a winner extends its stream, a loser met a conflict.
  lemma {:induction false} SaveOutcome(t: Store, t': Store, r: Outcome, streams: Streams, s: State,
                                       pending: seq<Event>)
    requires StoreInv(t, streams) && Tracks(streams, s, pending) && |pending| > 0
    requires match SaveTx(t, s, pending)
             case Ok(won) => r == Done && t' == won
             case Err(e) => r == Failed(e) && t' == t
    ensures r == Done <==> s.version - |pending| == |StreamOf(streams, s.id)|
    ensures r.Failed? ==> r == Failed(Conflict)
    ensures r == Done ==> StoreInv(t', Extended(streams, s.id, pending))
  {
    SaveExact(t, streams, s, pending);
    if r == Done {
      SaveKeeps(t, streams, s, pending);
    }
  }

  lemma {:induction false} AppendSticks(events: map<Key, Event>, id: Id, expected: nat, es: seq<Event>, n: nat, m: nat)
    requires n <= m <= |es| && AppendUpTo(events, id, expected, es, n).Err?
    ensures AppendUpTo(events, id, expected, es, m) == AppendUpTo(events, id, expected, es, n)
    decreases m
  {
    if n < m {
      AppendSticks(events, id, expected, es, n, m - 1);
    }
  }

  // The initiated row a lookup finds is the first event of a stored stream.
  lemma {:induction false} InitiatedRowIsFirst(t: Store, streams: Streams, k: Key)
    requires StoreInv(t, streams) && k in t.events && t.events[k].PaymentInitiated?
    ensures k.id in streams && BelongsTo(streams[k.id], t.events[k].order)
  {
    assert RowsAreStream(t.events, k.id, StreamOf(streams, k.id));
    assert k == Key(k.id, k.version);
    assert 1 <= k.version <= |StreamOf(streams, k.id)|;
    assert Legal(k.id, streams[k.id]);
  }

  class Service {
    const repo: Repository
    var gatewayCalls: seq<Id>

    constructor (repo: Repository)
      ensures this.repo == repo && gatewayCalls == []
    {
      this.repo := repo;
      gatewayCalls := [];
    }

    // ProcessPayment charges an order once; freshId is the id a new payment would get, and
    // saveFails says whether the database refuses the Save.
    method ProcessPayment(o: Id, customer: Id, amount: int, currency: string, freshId: Id, breakerOpen: bool,
                          saveFails: bool)
      returns (r: Outcome)
      requires repo.Valid() && freshId !in repo.streams
      modifies this, repo
      ensures repo.Valid()
      ensures var c := PaymentService.ProcessPayment(old(repo.streams), o, customer, amount, currency, freshId,
              breakerOpen, saveFails);
              && repo.streams == c.streams && r == c.outcome
              && gatewayCalls == old(gatewayCalls) + if c.calledGateway then [freshId] else []
    {
      var existing := repo.FindByOrderID(o);
      if existing.Some? {
        return Done;
      }
      if o == NIL || customer == NIL || amount <= 0 || |currency| == 0 {
        return Failed(Validation);
      }
      var p := new Aggregate();
      p.Apply(PaymentInitiated(freshId, o, customer, amount, currency));
      ghost var first := PaymentInitiated(freshId, o, customer, amount, currency);
      ghost var second := Settlement(freshId, amount, breakerOpen);
      gatewayCalls := gatewayCalls + [freshId];
      var verdict := Charge(freshId, amount, breakerOpen);
      Settle(p, verdict);
      assert p.state == ApplyEvent(ApplyEvent(ZERO, first), second) && p.pending == [first, second];
      if saveFails {
        return Failed(Constraint);
      }
      FreshTracks(repo.streams, freshId, first, second);
      assert [] + [first, second] == [first, second];
      r := repo.Save(p);
      if verdict.Refused? {
        r := Failed(ChargeDeclined);
      }
    }

    // Reflects the gateway's verdict in a payment just initiated.
    method Settle(p: Aggregate, verdict: Verdict)
      requires p.state.status == Initiated
      requires match verdict case Approved(tx) => |tx| > 0 case Refused(code) => |code| > 0
      modifies p
      ensures var e := match verdict case Approved(tx) => PaymentProcessed(old(p.state.id), tx)
              case Refused(code) => PaymentDeclined(old(p.state.id), code);
              p.state == ApplyEvent(old(p.state), e) && p.pending == old(p.pending) + [e]
    {
      match verdict
      case Approved(tx) => var _ := p.Execute(Process(tx));
      case Refused(code) => var _ := p.Execute(Decline(code));
    }

    method RefundPayment(id: Id, reason: string) returns (r: Outcome)
      requires repo.Valid()
      modifies repo
      ensures repo.Valid()
      ensures repo.streams == PaymentService.RefundPayment(old(repo.streams), id, reason).0
      ensures r == PaymentService.RefundPayment(old(repo.streams), id, reason).1
    {
      ghost var before := repo.streams;
      var p: Aggregate;
      r, p := repo.Load(id);
      if r == Done {
        RefundCases(before, id, reason);
        r := p.Execute(Refund(reason));
        if r == Done {
          r := repo.Save(p);
        }
      }
    }
  }

  // Charges orders that are ready for payment.
  class OrdersConsumer {
    const payments: Service
    var processed: set<Id>

    constructor (payments: Service)
      ensures this.payments == payments && processed == {}
    {
      this.payments := payments;
      processed := {};
    }

    method Handle(event: Id, kind: OrderEventKind, o: Id, customer: Id, amount: int, currency: string,
                  freshId: Id, breakerOpen: bool, saveFails: bool, markFails: bool) returns (r: Outcome)
      requires payments.repo.Valid() && freshId !in payments.repo.streams
      modifies this, payments, payments.repo
      ensures payments.repo.Valid()
      ensures Consumed(payments.repo.streams, processed, r) ==
              Consume(old(payments.repo.streams), old(processed), event, kind, o, customer, amount, currency,
                  freshId, breakerOpen, saveFails, markFails)
      ensures processed == old(processed) || processed == old(processed) + {event}
      ensures event !in old(processed) ==>
                (event in processed <==>
                   kind == OrderReadyForPayment && HasPayment(payments.repo.streams, o) && !markFails)
      ensures r == Done <==> kind != OrderReadyForPayment || event in processed
    {
      if event !in processed {
        MarkedIff(payments.repo.streams, processed, event, kind, o, customer, amount, currency, freshId, breakerOpen,
            saveFails, markFails);
      }
      if kind != OrderReadyForPayment || event in processed {
        return Done;
      }
      r := payments.ProcessPayment(o, customer, amount, currency, freshId, breakerOpen, saveFails);
      if r.Failed? && r.error != ChargeDeclined {
        return;
      }
      if markFails {
        return Failed(Unavailable);
      }
      processed := processed + {event};
      r := Done;
    }
  }

  // A refund in terms of the aggregate a load yields.
  lemma {:induction false} RefundCases(streams: Streams, id: Id, reason: string)
    requires StreamsLegal(streams) && id in streams && id != NIL
    ensures var s := Replay(ZERO, streams[id]);
            match Decide(s, Refund(reason))
            case Err(e) => PaymentService.RefundPayment(streams, id, reason) == (streams, Failed(e))
            case Ok(e) =>
              && PaymentService.RefundPayment(streams, id, reason) == (Extended(streams, id, [e]), Done)
              && Tracks(streams, ApplyEvent(s, e), [] + [e]) && ApplyEvent(s, e).id == id
              && ApplyEvent(s, e).version == |streams[id]| + 1 && [] + [e] == [e]
  {
    if Decide(Replay(ZERO, streams[id]), Refund(reason)).Ok? {
      RefundedTracks(streams, id, Refund(reason));
      assert [] + [Decide(Replay(ZERO, streams[id]), Refund(reason)).value] ==
          [Decide(Replay(ZERO, streams[id]), Refund(reason)).value];
    }
  }

  lemma {:induction false} FreshTracks(streams: Streams, id: Id, first: Event, second: Event)
    requires id !in streams && Opening(id, first) && Settling(id, second)
    ensures var s := ApplyEvent(ApplyEvent(ZERO, first), second);
            Tracks(streams, s, [first, second]) && s.id == id && s.version == 2
  {
    var s := ApplyEvent(ApplyEvent(ZERO, first), second);
    assert [first, second][..1] == [first] && [first][..0] == [];
    assert Replay(ZERO, [first]) == ApplyEvent(Replay(ZERO, []), first);
    assert Replay(ZERO, [first, second]) == ApplyEvent(Replay(ZERO, [first]), second);
    assert Describes([first, second], s);
    assert History([], s, [first, second]) == [first, second];
  }

  lemma {:induction false} RefundedTracks(streams: Streams, id: Id, c: Command)
    requires StreamsLegal(streams) && id in streams && Decide(Replay(ZERO, streams[id]), c).Ok?
    ensures var s, e := Replay(ZERO, streams[id]), Decide(Replay(ZERO, streams[id]), c).value;
            && Tracks(streams, ApplyEvent(s, e), [e]) && ApplyEvent(s, e).id == id
            && ApplyEvent(s, e).version == |streams[id]| + 1
  {
    var es := streams[id];
    var s, e := Replay(ZERO, es), Decide(Replay(ZERO, es), c).value;
    LegalState(id, es);
    CommandsAreLifecycle(id, es, c);
    assert (es + [e])[..|es + [e]| - 1] == es;
    assert Describes(es + [e], ApplyEvent(s, e));
    assert History(es, ApplyEvent(s, e), [e]) == es + [e];
  }
}
