/** Failure-compatible wrappers shared by every module of the model. */
module Results {

  /** A value that may be absent; Go's `-1` index results and `(x, err)` pairs map onto it. */
  datatype Option<+T> = None | Some(value: T)

  /** A value or the reason the computation stopped, usable with `:-`. */
  datatype Result<+T, +E> = Ok(value: T) | Err(error: E) {

    predicate IsFailure() {
      Err?
    }

    function PropagateFailure<U>(): Result<U, E>
      requires Err?
    {
      Err(error)
    }

    function Extract(): T
      requires Ok?
    {
      value
    }
  }
}
