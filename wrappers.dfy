/** Failure-carrying values standing for Java's checked exceptions. */
module Wrappers {

  datatype Option<+T> = None | Some(value: T)

  /** The value of a call that either returns or throws. */
  datatype Result<+R, +E> = Success(value: R) | Failure(error: E)

  /** The value of a void call that either completes or throws. */
  datatype Outcome<+E> = Pass | Fail(error: E)
}
