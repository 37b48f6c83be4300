/** Identifiers, results and error kinds shared by the modelled services. */
module Common {

  // UUIDs are abstract: a natural number stands for one, and zero for uuid.Nil.
  type Id = nat
  const NIL: Id := 0

  const MAX_INT64: int := 0x7FFF_FFFF_FFFF_FFFF
  const TWO_64: int := 0x1_0000_0000_0000_0000

  datatype Option<+T> = None | Some(value: T)

  // The error kinds callers branch on; everything else a database reports is Constraint.
  datatype Error = Validation | NotFound | Conflict | Insufficient | Constraint | AlreadyProcessed | ChargeDeclined
      | Unavailable | Interrupted

  datatype Result<+T> = Ok(value: T) | Err(error: Error) {
    predicate IsFailure() { Err? }
    function PropagateFailure<U>(): Result<U>
      requires Err?
    {
      Err(error)
    }
    function Extract(): T
      requires Ok?
    {
      value
    }
  }

  datatype Outcome = Done | Failed(error: Error)

  // Event types on the orders topic.
  datatype OrderEventKind = OrderCreated | OrderReadyForPayment | OrderConfirmed | OrderCancelled

  // How a remote call went: with its effect and an answer, with its effect but no answer, or
  // without effect.
  datatype Call = Answered | Unanswered | Lost

  // Two's complement wrap-around of a 64-bit signed integer.
  function Wrap64(x: int): (r: int)
    ensures -MAX_INT64 - 1 <= r <= MAX_INT64
    ensures -MAX_INT64 - 1 <= x <= MAX_INT64 ==> r == x
  {
    (x + MAX_INT64 + 1) % TWO_64 - MAX_INT64 - 1
  }
}
