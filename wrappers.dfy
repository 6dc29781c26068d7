/** Option and Result: absence and failure as values. A Go function that
    returns `(value, error)` or calls a fatal logger is modelled as returning
    a Result. */
module Wrappers {

  datatype Option<+T> = None | Some(value: T)

  datatype Result<+T, +E> = Success(value: T) | Failure(error: E)
}
