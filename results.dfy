/** The failure-compatible outcome of a step that may raise an error.
    A raised `ValueError(msg)` becomes `Err(msg)`: the message is all the
    controller keeps of it (it reports `str(e)`). */
module Results {

  datatype Result<+T> = Ok(value: T) | Err(msg: string) {

    predicate IsFailure() {
      Err?
    }

    function PropagateFailure<U>(): Result<U>
      requires Err?
    {
      Err(msg)
    }

    function Extract(): T
      requires Ok?
    {
      value
    }
  }
}
