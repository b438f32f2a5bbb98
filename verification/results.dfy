/** Option and Result, the two wrappers the scanner model uses. A `Result` is
    failure-compatible, so a step that can raise is written with `:-`. */
module Results {

  /** A value that may be absent: a Python attribute that has not been set yet. */
  datatype Option<+T> = None | Some(value: T)

  /** Either a value or the error that aborted the computation. */
  datatype Result<+T, +E> = Ok(value: T) | Err(error: E) {

    predicate IsFailure() {
      Err?
    }

    function PropagateFailure<U>(): Result<U, E>
      requires Err?
    {
      Err(error)
    }

    function Extract(): T
      requires Ok?
    {
      value
    }
  }
}
