/** Failure-compatible wrappers: an optional value and a value-or-error, the
    Dafny counterparts of Go's nil-able pointer and `(T, error)` return pairs. */
module Wrappers {

  datatype Option<+T> = None | Some(value: T)

  /** Either a value or an error; usable with `:-` to return the error early,
      as Go code does with `if err != nil { return nil, err }`. */
  datatype Result<+R, +E> = Success(value: R) | Failure(error: E) {

    predicate IsFailure() {
      Failure?
    }

    function PropagateFailure<U>(): Result<U, E>
      requires Failure?
    {
      Failure(error)
    }

    function Extract(): R
      requires Success?
    {
      value
    }
  }
}
