/** Failure-carrying values used in place of the exceptions the handle throws. */
module Wrappers {

  /** A value that may be absent, such as the handle's optional empty view. */
  datatype Option<+T> = None | Some(value: T)

  /** The result of a lookup: the value found, or the error the lookup fails with. */
  datatype Result<+R, +E> = Success(value: R) | Failure(error: E)

  /** The result of an operation that returns nothing: it passed, or failed with an error. */
  datatype Outcome<+E> = Pass | Fail(error: E)
}
