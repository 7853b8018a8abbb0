/** The two wrapper types of the model. `Option` stands for a Ruby value that may be
    `nil`; `Result` is what an operation that may raise returns. `Result` supplies
    the three members Dafny's `:-` operator needs, so a raise propagates to the caller. */
module Wrappers {

  datatype Option<T> = None | Some(value: T)

  /** `Success` is a normal return with its value; `Failure` is the raised exception. */
  datatype Result<T, E> = Success(value: T) | Failure(error: E) {

    predicate IsFailure() {
      Failure?
    }

    function PropagateFailure<U>(): Result<U, E>
      requires Failure?
    {
      Failure(error)
    }

    function Extract(): T
      requires Success?
    {
      value
    }
  }
}
