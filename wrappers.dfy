/** Option, Result and Outcome, the failure-carrying values the model uses in
    place of `undefined` and of thrown exceptions. */
module Wrappers {

  datatype Option<+T> = None | Some(value: T)

  datatype Result<+R, +E> = Success(value: R) | Failure(error: E)

  /** The result of an operation that returns nothing useful but may throw. */
  datatype Outcome<+E> = Pass | Fail(error: E)
}
