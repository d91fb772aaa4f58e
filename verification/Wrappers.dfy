/** The two failure-compatible results every other module uses. */
module Wrappers {

  /** A value that may be missing: Python's None, or a C NULL. */
  datatype Option<+T> = None | Some(value: T)

  /** A value, or the reason the operation was refused (a raised exception in the program). */
  datatype Result<+T, +E> = Ok(value: T) | Err(error: E) {
    predicate IsFailure() { Err? }

    function PropagateFailure<U>(): Result<U, E>
      requires Err?
    {
      Err(error)
    }

    function Extract(): T
      requires Ok?
    {
      value
    }
  }

  type byte = x: int | 0 <= x < 256
}
