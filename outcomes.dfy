/** Option and Result values used for the Python `None` results and raised errors of the board. */
module Outcomes {

  /** A value that may be missing: a JSON field that is absent, or a parse that failed. */
  datatype Option<+T> = None | Some(value: T)

  /** The result of an operation that raises on failure in the original program. */
  datatype Result<+T, +E> = Success(value: T) | Failure(error: E)
}
