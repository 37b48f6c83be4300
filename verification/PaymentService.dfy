/** The payment service: the repository over the event store, the gateway rule, and the charge and
    refund use cases. The use cases are specified on the streams the tables spell out. */
module PaymentService {
  import opened Common
  import opened Payment
  import opened EventStore

  // ---------- the gateway ----------

  const GATEWAY_MAX_CENTS := 1_000_000

  datatype Verdict = Approved(transaction: string) | Refused(code: string)

  function IdText(id: Id): (s: string)
    ensures |s| > 0
  {
    var digit := ["0", "1", "2", "3", "4", "5", "6", "7", "8", "9"][id % 10];
    if id < 10 then digit else IdText(id / 10) + digit
  }

  // The stub gateway approves positive amounts within its limit; an open breaker refuses all.
  function Charge(id: Id, amount: int, breakerOpen: bool): Verdict {
    if breakerOpen then Refused("gateway_unavailable")
    else if amount <= 0 || amount > GATEWAY_MAX_CENTS then Refused("insufficient_funds")
    else Approved("stub_" + IdText(id))
  }

  // ---------- the use cases on streams ----------

  predicate BelongsTo(es: seq<Event>, o: Id) {
    |es| > 0 && es[0].PaymentInitiated? && es[0].order == o
  }

  predicate HasPayment(streams: Streams, o: Id) {
    exists id | id in streams :: BelongsTo(streams[id], o)
  }

  predicate OnePerOrder(streams: Streams) {
    forall a, b | a in streams && b in streams && a != b ::
      |streams[a]| > 0 && streams[a][0].PaymentInitiated? ==> !BelongsTo(streams[b], streams[a][0].order)
  }

  function Settlement(id: Id, amount: int, breakerOpen: bool): Event {
    match Charge(id, amount, breakerOpen)
    case Approved(tx) => PaymentProcessed(id, tx)
    case Refused(code) => PaymentDeclined(id, code)
  }

  // What one ProcessPayment call leaves: the streams, whether the gateway was called, the answer.
  datatype Charged = Charged(streams: Streams, calledGateway: bool, outcome: Outcome)

  function ProcessPayment(streams: Streams, o: Id, customer: Id, amount: int, currency: string,
                          id: Id, breakerOpen: bool, saveFails: bool): Charged {
    if HasPayment(streams, o) then Charged(streams, false, Done)
    else
      match Initiate(id, o, customer, amount, currency)
      case Err(e) => Charged(streams, false, Failed(e))
      case Ok(first) =>
        if saveFails then Charged(streams, true, Failed(Constraint))
        else
          var second := Settlement(id, amount, breakerOpen);
          Charged(streams[id := [first, second]], true, if second.PaymentProcessed? then Done
              else Failed(ChargeDeclined))
  }

  function RefundPayment(streams: Streams, id: Id, reason: string): (Streams, Outcome) {
    if id !in streams || id == NIL then (streams, Failed(NotFound))
    else
      match Decide(Replay(ZERO, streams[id]), Refund(reason))
      case Err(e) => (streams, Failed(e))
      case Ok(e) => (streams[id := streams[id] + [e]], Done)
  }

  // The consumer's handling of an order event: effect first, mark afterwards. A decline is a handled
  // outcome; any other error leaves the event unmarked.
  datatype Consumed = Consumed(streams: Streams, marks: set<Id>, outcome: Outcome)

  function Consume(streams: Streams, marks: set<Id>, event: Id, kind: OrderEventKind, o: Id, customer: Id,
                   amount: int, currency: string,
                   id: Id, breakerOpen: bool, saveFails: bool, markFails: bool): Consumed {
    if kind != OrderReadyForPayment || event in marks then Consumed(streams, marks, Done)
    else
      var c := ProcessPayment(streams, o, customer, amount, currency, id, breakerOpen, saveFails);
      if c.outcome.Failed? && c.outcome.error != ChargeDeclined then Consumed(c.streams, marks, c.outcome)
      else if markFails then Consumed(c.streams, marks, Failed(Unavailable))
      else Consumed(c.streams, marks + {event}, Done)
  }

  // The answer and what it leaves, case by case: an order with a payment is answered without a charge, an
  // invalid request is refused before it, and a charge that is not stored is an error whatever the gateway
  // said. A stored one is captured exactly when the breaker is closed and the amount at most 1,000,000
  // cents; otherwise it is stored as declined, with the gateway's code, and the answer says so.
  lemma {:induction false} ProcessAnswer(streams: Streams, o: Id, customer: Id, amount: int, currency: string, id: Id,
                                         breakerOpen: bool, saveFails: bool)
    ensures var c := ProcessPayment(streams, o, customer, amount, currency, id, breakerOpen, saveFails);
            var first := PaymentInitiated(id, o, customer, amount, currency);
            if HasPayment(streams, o) then c == Charged(streams, false, Done)
            else if o == NIL || customer == NIL || amount <= 0 || currency == "" then
              c == Charged(streams, false, Failed(Validation))
            else if saveFails then c == Charged(streams, true, Failed(Constraint))
            else if breakerOpen then
              c == Charged(streams[id := [first, PaymentDeclined(id, "gateway_unavailable")]], true,
                           Failed(ChargeDeclined))
            else if amount > 1_000_000 then
              c == Charged(streams[id := [first, PaymentDeclined(id, "insufficient_funds")]], true,
                           Failed(ChargeDeclined))
            else c == Charged(streams[id := [first, PaymentProcessed(id, "stub_" + IdText(id))]], true, Done)
  {
  }

  // Done if and only if the order has a payment afterwards that was not just turned down.
  lemma {:induction false} ProcessDoneIff(streams: Streams, o: Id, customer: Id, amount: int, currency: string, id: Id,
                                          breakerOpen: bool, saveFails: bool)
    requires id !in streams
    ensures var c := ProcessPayment(streams, o, customer, amount, currency, id, breakerOpen, saveFails);
            && (c.outcome == Done <==>
                HasPayment(streams, o) || (id in c.streams && BelongsTo(c.streams[id], o) && Captured(c.streams[id])))
            && (c.outcome == Failed(ChargeDeclined) <==>
                id in c.streams && BelongsTo(c.streams[id], o) && TurnedDown(c.streams[id]))
            && (HasPayment(c.streams, o) <==> c.outcome == Done || c.outcome == Failed(ChargeDeclined))
  {
    ProcessAnswer(streams, o, customer, amount, currency, id, breakerOpen, saveFails);
    var c := ProcessPayment(streams, o, customer, amount, currency, id, breakerOpen, saveFails);
    if id in c.streams {
      assert BelongsTo(c.streams[id], o);
    }
  }

  lemma {:induction false} IdTextDistinct(a: Id, b: Id)
    requires IdText(a) == IdText(b)
    ensures a == b
    decreases a + b
  {
    var s, t := IdText(a), IdText(b);
    LastDigit(a);
    LastDigit(b);
    if a >= 10 && b >= 10 {
      IdTextDistinct(a / 10, b / 10);
    }
  }

  // The transactions of two payments are never the same.
  lemma {:induction false} TransactionsDistinct(a: Id, b: Id, x: int, y: int, aOpen: bool, bOpen: bool)
    requires Settlement(a, x, aOpen).PaymentProcessed? && Settlement(b, y, bOpen).PaymentProcessed?
    requires Settlement(a, x, aOpen).transaction == Settlement(b, y, bOpen).transaction
    ensures a == b
  {
    assert ("stub_" + IdText(a))[5..] == IdText(a) && ("stub_" + IdText(b))[5..] == IdText(b);
    IdTextDistinct(a, b);
  }

  lemma {:induction false} LastDigit(a: Id)
    ensures var s := IdText(a);
            && s[|s| - 1] == "0123456789"[a % 10] && (a >= 10 ==> s[..|s| - 1] == IdText(a / 10))
            && (a < 10 <==> |s| == 1)
  {
  }

  // A refund's answer, told from the stream.
  lemma {:induction false} RefundAnswer(streams: Streams, id: Id, reason: string)
    requires StreamsLegal(streams)
    ensures RefundPayment(streams, id, reason) ==
            if id == NIL || id !in streams then (streams, Failed(NotFound))
            else if !Captured(streams[id]) then (streams, Failed(Conflict))
            else if reason == "" then (streams, Failed(Validation))
            else (streams[id := streams[id] + [PaymentRefunded(id, streams[id][0].amount, reason)]], Done)
  {
    if id in streams {
      CommandAnswer(id, streams[id], Refund(reason));
    }
  }

  // Which events may be marked processed: those of another kind never are, and one that asks for a charge
  // is marked exactly when the order then has a payment and the mark itself did not fail.
  lemma {:induction false} MarkedIff(streams: Streams, marks: set<Id>, event: Id, kind: OrderEventKind, o: Id,
                                     customer: Id, amount: int, currency: string, id: Id, breakerOpen: bool,
                                     saveFails: bool, markFails: bool)
    requires event !in marks && id !in streams
    ensures var c := Consume(streams, marks, event, kind, o, customer, amount, currency, id, breakerOpen, saveFails,
                             markFails);
            && (c.marks == marks || c.marks == marks + {event})
            && (event in c.marks <==> kind == OrderReadyForPayment && HasPayment(c.streams, o) && !markFails)
            && (c.outcome == Done <==> kind != OrderReadyForPayment || event in c.marks)
            && (kind != OrderReadyForPayment ==> c.streams == streams)
  {
    ProcessDoneIff(streams, o, customer, amount, currency, id, breakerOpen, saveFails);
  }

  // Neither use case ever leaves an order with two payments, or a stream outside the lifecycle.
  lemma {:induction false} ProcessKeeps(streams: Streams, o: Id, customer: Id, amount: int, currency: string, id: Id,
                                        breakerOpen: bool, saveFails: bool)
    requires StreamsLegal(streams) && OnePerOrder(streams) && id !in streams
    ensures var c := ProcessPayment(streams, o, customer, amount, currency, id, breakerOpen, saveFails);
            && StreamsLegal(c.streams) && OnePerOrder(c.streams)
            && (c.streams != streams <==> c.calledGateway && !saveFails)
            && (c.streams != streams ==>
                  && (Captured(c.streams[id]) <==> !breakerOpen && amount <= GATEWAY_MAX_CENTS)
                  && (TurnedDown(c.streams[id]) <==> !Captured(c.streams[id]))
                  && BelongsTo(c.streams[id], o) && c.streams[id][0].amount == amount)
  {
    var c := ProcessPayment(streams, o, customer, amount, currency, id, breakerOpen, saveFails);
    assert c.streams != streams ==> id in c.streams;
  }

  lemma {:induction false} RefundKeeps(streams: Streams, id: Id, reason: string)
    requires StreamsLegal(streams) && OnePerOrder(streams)
    ensures StreamsLegal(RefundPayment(streams, id, reason).0) && OnePerOrder(RefundPayment(streams, id, reason).0)
    ensures RefundPayment(streams, id, reason).1 == Done <==>
            id != NIL && id in streams && Captured(streams[id]) && |reason| > 0
  {
    if id in streams {
      CommandsAreLifecycle(id, streams[id], Refund(reason));
    }
    var after: Streams := RefundPayment(streams, id, reason).0;
    forall a: Id, b: Id | a in after && b in after && a != b && |after[a]| > 0 && after[a][0].PaymentInitiated?
      ensures !BelongsTo(after[b], after[a][0].order)
    {
      assert after[a][0] == streams[a][0] && after[b][0] == streams[b][0];
    }
  }

  // ---------- how often the gateway is called for one order ----------

  // Repeated deliveries of one order's request, with the id each fresh payment would get and
  // whether its Save fails.
  function Deliver(streams: Streams, o: Id, customer: Id, amount: int, currency: string,
                   script: seq<(Id, bool)>): (Streams, nat) {
    if |script| == 0 then (streams, 0)
    else
      var (before, calls) := Deliver(streams, o, customer, amount, currency, script[..|script| - 1]);
      var last := script[|script| - 1];
      var c := ProcessPayment(before, o, customer, amount, currency, last.0, false, last.1);
      (c.streams, calls + if c.calledGateway then 1 else 0)
  }

  predicate Saved(script: seq<(Id, bool)>) {
    exists i | 0 <= i < |script| :: !script[i].1
  }

  predicate FirstSaved(script: seq<(Id, bool)>, n: nat) {
    n < |script| && !script[n].1 && !Saved(script[..n])
  }

  lemma {:induction false} SavedGrows(script: seq<(Id, bool)>)
    requires |script| > 0
    ensures Saved(script) <==> Saved(script[..|script| - 1]) || !script[|script| - 1].1
  {
    var front := script[..|script| - 1];
    if i :| 0 <= i < |front| && !front[i].1 {
      assert !script[i].1;
    }
    if i :| 0 <= i < |script| && !script[i].1 {
      assert i < |front| ==> !front[i].1;
    }
  }

  lemma {:induction false} OneDelivery(streams: Streams, o: Id, customer: Id, amount: int, currency: string, id: Id,
                                       saveFails: bool)
    requires Initiate(id, o, customer, amount, currency).Ok?
    ensures var c := ProcessPayment(streams, o, customer, amount, currency, id, false, saveFails);
            && (c.calledGateway <==> !HasPayment(streams, o))
            && (HasPayment(c.streams, o) <==> HasPayment(streams, o) || !saveFails)
  {
    var c := ProcessPayment(streams, o, customer, amount, currency, id, false, saveFails);
    if !HasPayment(streams, o) && !saveFails {
      assert BelongsTo(c.streams[id], o);
    }
  }

  // The gateway is called once per delivery until a Save goes through, and never after.
  lemma {:induction false} GatewayCalls(streams: Streams, o: Id, customer: Id, amount: int, currency: string,
                                        script: seq<(Id, bool)>)
    requires !HasPayment(streams, o) && Initiate(NIL, o, customer, amount, currency).Ok?
    ensures HasPayment(Deliver(streams, o, customer, amount, currency, script).0, o) <==> Saved(script)
    ensures !Saved(script) ==> Deliver(streams, o, customer, amount, currency, script).1 == |script|
    ensures forall n: nat | FirstSaved(script, n) :: Deliver(streams, o, customer, amount, currency, script).1 == n + 1
  {
    if |script| > 0 {
      var front, last := script[..|script| - 1], script[|script| - 1];
      GatewayCalls(streams, o, customer, amount, currency, front);
      SavedGrows(script);
      OneDelivery(Deliver(streams, o, customer, amount, currency, front).0, o, customer, amount, currency, last.0,
          last.1);
      forall n: nat | FirstSaved(script, n) ensures Deliver(streams, o, customer, amount, currency, script).1 == n + 1 {
        if n < |front| {
          assert !front[n].1 && front[..n] == script[..n];
          assert FirstSaved(front, n);
        } else {
          assert script[..n] == front;
        }
      }
    }
  }

  // So the documented promise that a redelivery never charges the gateway twice holds if and only
  // if the Save after the first charge did not fail.
  lemma {:induction false} ChargedTwiceIff(streams: Streams, o: Id, customer: Id, amount: int, currency: string,
                                           script: seq<(Id, bool)>)
    requires !HasPayment(streams, o) && Initiate(NIL, o, customer, amount, currency).Ok? && |script| >= 2
    ensures Deliver(streams, o, customer, amount, currency, script).1 >= 2 <==> script[0].1
  {
    GatewayCalls(streams, o, customer, amount, currency, script);
    if !script[0].1 {
      assert FirstSaved(script, 0);
    } else if Saved(script) {
      FirstSavedExists(script);
      var n: nat :| FirstSaved(script, n);
    }
  }

  lemma {:induction false} FirstSavedExists(script: seq<(Id, bool)>)
    requires Saved(script)
    ensures exists n: nat :: FirstSaved(script, n)
  {
    var front := script[..|script| - 1];
    if Saved(front) {
      FirstSavedExists(front);
      var n: nat :| FirstSaved(front, n);
      assert script[..n] == front[..n];
      assert FirstSaved(script, n);
    } else {
      SavedGrows(script);
      assert FirstSaved(script, |script| - 1);
    }
  }
}
