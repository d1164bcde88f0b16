/** Option and Result wrappers shared by every module of the model.
    `Option` stands for a Kotlin nullable value; `Result` for a call that
    either returns a value or throws, and is failure-compatible so that a
    chain of throwing calls reads as a chain of `:-` steps. */
module Outcomes {

  datatype Option<+T> = None | Some(value: T)

  datatype Result<+T, +E> = Success(value: T) | Failure(error: E) {

    predicate IsFailure() {
      Failure?
    }

    function PropagateFailure<U>(): Result<U, E>
      requires Failure?
    {
      Failure(error)
    }

    function Extract(): T
      requires Success?
    {
      value
    }
  }
}
