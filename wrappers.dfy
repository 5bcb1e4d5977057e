/** Failure-compatible wrappers used for Go's `(value, error)` returns and nil-able pointers. */
module Wrappers {

  /** A nil-able value: `None` stands for Go's nil pointer or absent map entry. */
  datatype Option<+T> = None | Some(value: T)

  /** A Go `(value, error)` pair where exactly one side is meaningful. */
  datatype Result<+T, +E> = Ok(value: T) | Err(error: E) {
    predicate IsFailure() { Err? }

    function PropagateFailure<U>(): Result<U, E>
      requires Err?
    {
      Err(error)
    }

    function Extract(): T
      requires Ok?
    {
      value
    }
  }
}
