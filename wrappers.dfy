/** Option and Result values used for the error paths of the model. */
module Wrappers {

  datatype Option<+T> = None | Some(value: T)

  /** `Err` stands for every way the modelled code gives up: a returned error
      as well as a panic, since both end the run. */
  datatype Result<+T, +E> = Ok(value: T) | Err(error: E) {

    predicate IsFailure() {
      Err?
    }

    function PropagateFailure<U>(): Result<U, E>
      requires Err?
    {
      Err(error)
    }

    function Extract(): T
      requires Ok?
    {
      value
    }
  }
}
