/** Python's `None` and raised exceptions, as values. */
module Wrappers {

  /** An optional value: `None` is Python's `None`. */
  datatype Option<+T> = None | Some(value: T)

  /** The outcome of a call that either returns a value or raises an exception. */
  datatype Result<+R, +E> = Success(value: R) | Failure(error: E)
}
