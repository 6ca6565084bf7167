/** Failure-carrying datatypes shared by every route handler and service of the model. */
module Wrappers {

  datatype Option<+T> = None | Some(value: T)

  /** What an Express handler sends when it stops early: an HTTP status and the JSON `message`/`error` text. */
  datatype Failure = Failure(status: int, message: string)

  /** The outcome of a handler: the JSON body it answers with, or the failure it reports. */
  datatype Result<+T> = Ok(value: T) | Err(failure: Failure) {
    predicate IsFailure() { Err? }
    function PropagateFailure<U>(): Result<U> requires Err? { Err(failure) }
    function Extract(): T requires Ok? { value }
  }

  /** `Err` with the given status and message, the shape of `res.status(s).json({ message })`. */
  function Fail<T>(status: int, message: string): Result<T> {
    Err(Failure(status, message))
  }

  /** A middleware's verdict: call `next()` or answer with a failure. */
  datatype Gate = Pass | Deny(failure: Failure)
}
