/** The two ways a call can end without its normal result. */
module Failures {

  /** A value that may be absent, as `undefined` is in the source. */
  datatype Option<+T> = None | Some(value: T)

  /** A result or the message of the error that was thrown instead. */
  datatype Result<+T> = Success(value: T) | Failure(error: string)

  /** How an event handler that returns nothing ended: normally, or by an exception. */
  datatype Outcome = Completed | Thrown(message: string)
}
