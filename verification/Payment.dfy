/** The payment aggregate: its events, the state they fold into, and the lifecycle its commands
    allow. */
module Payment {
  import opened Common

  datatype Status = NoStatus | Initiated | Completed | Declined | Refunded | Withdrawn

  datatype Event =
    | PaymentInitiated(payment: Id, order: Id, customer: Id, amount: int, currency: string)
    | PaymentProcessed(payment: Id, transaction: string)
    | PaymentDeclined(payment: Id, reason: string)
    | PaymentRefunded(payment: Id, refund: int, reason: string)
    | PaymentWithdrawn(payment: Id, reason: string)

  datatype State = State(
    id: Id, order: Id, customer: Id, amount: int, currency: string, status: Status, version: nat)

  const ZERO := State(NIL, NIL, NIL, 0, "", NoStatus, 0)

  datatype Command = Process(transaction: string) | Decline(reason: string) | Refund(reason: string)
      | Withdraw(reason: string)

  function ApplyEvent(s: State, e: Event): State {
    var s' := match e
      case PaymentInitiated(p, o, c, a, cur) => State(p, o, c, a, cur, Initiated, s.version)
      case PaymentProcessed(_, _) => s.(status := Completed)
      case PaymentDeclined(_, _) => s.(status := Declined)
      case PaymentRefunded(_, _, _) => s.(status := Refunded)
      case PaymentWithdrawn(_, _) => s.(status := Withdrawn);
    s'.(version := s.version + 1)
  }

  function Replay(s: State, es: seq<Event>): State {
    if |es| == 0 then s else ApplyEvent(Replay(s, es[..|es| - 1]), es[|es| - 1])
  }

  function Initiate(id: Id, o: Id, customer: Id, amount: int, currency: string): Result<Event> {
    if o == NIL || customer == NIL || amount <= 0 || |currency| == 0 then Err(Validation)
    else Ok(PaymentInitiated(id, o, customer, amount, currency))
  }

  // The event a command produces in a state, or why it is refused.
  function Decide(s: State, c: Command): Result<Event> {
    match c
    case Process(tx) =>
      if s.status != Initiated then Err(Conflict) else if |tx| == 0 then Err(Validation)
        else Ok(PaymentProcessed(s.id, tx))
    case Decline(r) =>
      if s.status != Initiated then Err(Conflict) else if |r| == 0 then Err(Validation)
        else Ok(PaymentDeclined(s.id, r))
    case Refund(r) =>
      if s.status != Completed then Err(Conflict) else if |r| == 0 then Err(Validation)
        else Ok(PaymentRefunded(s.id, s.amount, r))
    case Withdraw(r) =>
      if s.status != Initiated then Err(Conflict) else if |r| == 0 then Err(Validation)
        else Ok(PaymentWithdrawn(s.id, r))
  }

  // ---------- the lifecycle ----------

  predicate Opening(id: Id, e: Event) {
    && e.PaymentInitiated? && e.payment == id
    && e.order != NIL && e.customer != NIL && e.amount > 0 && |e.currency| > 0
  }

  predicate Settling(id: Id, e: Event) {
    && (e.PaymentProcessed? || e.PaymentDeclined? || e.PaymentWithdrawn?)
    && e.payment == id
    && (e.PaymentProcessed? ==> |e.transaction| > 0)
  }

  // Initiated first, then at most one outcome, then a full refund only of a processed payment.
  predicate Legal(id: Id, es: seq<Event>) {
    && 1 <= |es| <= 3
    && Opening(id, es[0])
    && (|es| >= 2 ==> Settling(id, es[1]))
    && (|es| == 3 ==>
          es[1].PaymentProcessed? && es[2].PaymentRefunded? && es[2].payment == id && es[2].refund == es[0].amount)
  }

  predicate Captured(es: seq<Event>) {
    |es| == 2 && es[1].PaymentProcessed?
  }

  predicate TurnedDown(es: seq<Event>) {
    |es| == 2 && es[1].PaymentDeclined?
  }

  predicate WasRefunded(es: seq<Event>) {
    |es| == 3
  }

  // ---------- laws ----------

  lemma {:induction false} ReplayAppend(s: State, a: seq<Event>, b: seq<Event>)
    ensures Replay(s, a + b) == Replay(Replay(s, a), b)
  {
    if b == [] {
      assert a + b == a;
    } else {
      ReplayAppend(s, a, b[..|b| - 1]);
      assert (a + b)[..|a + b| - 1] == a + b[..|b| - 1];
    }
  }

  // Loading from any snapshot of a stream plus the events after it is replaying the whole stream,
  // whatever the events are, and however many were appended after the snapshot was read.
  lemma {:induction false} SnapshotPlusTail(before: seq<Event>, after: seq<Event>, k: nat)
    requires k <= |before| && before <= after
    ensures Replay(Replay(ZERO, before[..k]), after[k..]) == Replay(ZERO, after)
  {
    assert before[..k] == after[..k];
    assert after == after[..k] + after[k..];
    ReplayAppend(ZERO, after[..k], after[k..]);
  }

  // What replaying a legal stream yields.
  lemma {:induction false} LegalState(id: Id, es: seq<Event>)
    requires Legal(id, es)
    ensures Replay(ZERO, es) ==
            State(id, es[0].order, es[0].customer, es[0].amount, es[0].currency,
                  if |es| == 1 then Initiated
                  else if |es| == 3 then Refunded
                  else if es[1].PaymentProcessed? then Completed
                  else if es[1].PaymentDeclined? then Declined
                  else Withdrawn, |es|)
  {
    assert es[..1][..0] == [];
    assert Replay(ZERO, es[..1]) == ApplyEvent(Replay(ZERO, []), es[0]);
    if |es| == 1 {
      assert es[..1] == es;
    } else {
      assert es[..2][..1] == es[..1];
      if |es| == 2 {
        assert es[..2] == es;
      }
    }
  }

  // A command's answer told from the history: a refund needs a captured payment and every other command
  // one just initiated, or it conflicts; a missing text is invalid; otherwise the event carries the
  // payment's id, the text given, and for a refund the full amount.
  lemma {:induction false} CommandAnswer(id: Id, es: seq<Event>, c: Command)
    requires Legal(id, es)
    ensures var timely := if c.Refund? then Captured(es) else |es| == 1;
            var text := if c.Process? then c.transaction else c.reason;
            Decide(Replay(ZERO, es), c) ==
            if !timely then Err(Conflict) else if text == "" then Err(Validation)
            else
              Ok(match c
                 case Process(tx) => PaymentProcessed(id, tx)
                 case Decline(reason) => PaymentDeclined(id, reason)
                 case Refund(reason) => PaymentRefunded(id, es[0].amount, reason)
                 case Withdraw(reason) => PaymentWithdrawn(id, reason))
  {
    LegalState(id, es);
  }

  // Commands and the lifecycle agree: in a legal history the accepted commands are exactly those
  // whose event keeps it legal.
  lemma {:induction false} CommandsAreLifecycle(id: Id, es: seq<Event>, c: Command)
    requires Legal(id, es)
    ensures Decide(Replay(ZERO, es), c).Ok? ==> Legal(id, es + [Decide(Replay(ZERO, es), c).value])
    ensures c.Refund? ==> (Decide(Replay(ZERO, es), c).Ok? <==> Captured(es) && |c.reason| > 0)
    ensures c.Process? ==> (Decide(Replay(ZERO, es), c).Ok? <==> |es| == 1 && |c.transaction| > 0)
  {
    LegalState(id, es);
  }

  // ---------- the aggregate object ----------

  class Aggregate {
    var state: State
    var pending: seq<Event>

    // An aggregate not yet identified by any event.
    constructor ()
      ensures state == ZERO && pending == []
    {
      state, pending := ZERO, [];
    }

    // The state a snapshot stored.
    constructor FromSnapshot(s: State)
      ensures state == s && pending == []
    {
      state, pending := s, [];
    }

    // The state moves by one event, which joins the pending ones.
    method Apply(e: Event)
      modifies this
      ensures state == ApplyEvent(old(state), e) && pending == old(pending) + [e]
    {
      match e {
        case PaymentInitiated(p, o, c, a, cur) =>
          state := state.(id := p, order := o, customer := c, amount := a, currency := cur, status := Initiated);
        case PaymentProcessed(_, _) => state := state.(status := Completed);
        case PaymentDeclined(_, _) => state := state.(status := Declined);
        case PaymentRefunded(_, _, _) => state := state.(status := Refunded);
        case PaymentWithdrawn(_, _) => state := state.(status := Withdrawn);
      }
      state := state.(version := state.version + 1);
      pending := pending + [e];
    }

    // Runs a command: an accepted one applies exactly its event, a refused one changes nothing.
    method Execute(c: Command) returns (r: Outcome)
      modifies this
      ensures match Decide(old(state), c)
              case Ok(e) => r == Done && state == ApplyEvent(old(state), e) && pending == old(pending) + [e]
              case Err(e) => r == Failed(e) && state == old(state) && pending == old(pending)
    {
      match c
      case Process(tx) =>
        if state.status != Initiated { return Failed(Conflict); }
        if |tx| == 0 { return Failed(Validation); }
        Apply(PaymentProcessed(state.id, tx));
        r := Done;
      case Decline(reason) =>
        if state.status != Initiated { return Failed(Conflict); }
        if |reason| == 0 { return Failed(Validation); }
        Apply(PaymentDeclined(state.id, reason));
        r := Done;
      case Refund(reason) =>
        if state.status != Completed { return Failed(Conflict); }
        if |reason| == 0 { return Failed(Validation); }
        Apply(PaymentRefunded(state.id, state.amount, reason));
        r := Done;
      case Withdraw(reason) =>
        if state.status != Initiated { return Failed(Conflict); }
        if |reason| == 0 { return Failed(Validation); }
        Apply(PaymentWithdrawn(state.id, reason));
        r := Done;
    }

    method ClearPendingEvents()
      modifies this`pending
      ensures pending == []
    {
      pending := [];
    }
  }
}
