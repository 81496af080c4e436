/** Option and Result, standing for Python's `None`-able values and for
    operations that either return a value or raise. */
module Wrappers {

  datatype Option<+T> = None | Some(value: T)

  datatype Result<+T, +E> = Success(value: T) | Failure(error: E)
}
