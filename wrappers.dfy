/** Option and Result, used for the interpreter's optional fields and for its fatal exits. */
module Wrappers {

  datatype Option<+T> = None | Some(value: T)

  /** A fallible result; `:-` propagates the error. */
  datatype Result<+T, +E> = Ok(value: T) | Err(error: E) {

    predicate IsFailure() {
      Err?
    }

    function PropagateFailure<U>(): Result<U, E>
      requires Err?
    {
      Err(error)
    }

    function Extract(): T
      requires Ok?
    {
      value
    }
  }
}
