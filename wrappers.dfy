/** Option and Result for Go's `(value, error)` convention. */
module Wrappers {

  datatype Option<+T> = None | Some(value: T)

  /** A Go call that returns either a value or a non-nil `error`. */
  datatype Result<+T> = Success(value: T) | Failure(error: string)
}
