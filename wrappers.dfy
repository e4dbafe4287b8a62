/** Failure-carrying wrappers shared by the other modules. */
module Wrappers {

  /** An optional value; `None` stands for a lookup or a remote call that failed. */
  datatype Option<+T> = None | Some(value: T)

  /** A value or an error, the shape of Go's `(T, error)` return pairs. */
  datatype Result<+T, +E> = Success(value: T) | Failure(error: E)
}
