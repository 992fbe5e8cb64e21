/** How a database transaction can look to its client. */
module Transactions {

  /** Committed; rolled back by some failure; or committed while the client is told of a failure. */
  datatype Fate = Delivered | Lost | Ambiguous

  /** Success; budget exceeded; reservation not found or expired; any other error. */
  datatype Verdict = Ok | Exceeded | NotFound | Refused

  /** What the client is told: the answer, unless the transaction was lost, or
      was durable while its commit was reported as a failure. */
  function Told<A>(answer: A, durable: bool, failure: A, fate: Fate): A {
    if fate.Lost? || (fate.Ambiguous? && durable) then failure else answer
  }
}
