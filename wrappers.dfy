/** Option and Result types shared by the pipeline's modules. */
module Wrappers {

  /** A value that may be absent; stands in for Python's `None` and for the
      `float('inf')` "nothing seen yet" sentinel. */
  datatype Option<+T> = None | Some(value: T)

  /** The outcome of an operation that can fail with an error of type E. */
  datatype Result<+T, +E> = Success(value: T) | Failure(error: E)
}
