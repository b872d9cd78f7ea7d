/** Failure-carrying datatypes shared by the model. */
module Wrappers {

  /** An optional value: `None` stands for Python's `None` / a missing key. */
  datatype Option<+T> = None | Some(value: T) {

    /** The wrapped value, or `default` when there is none */
    function GetOr(default: T): T {
      match this
      case Some(v) => v
      case None => default
    }
  }

  /** A value or the text of the exception that was raised instead. */
  datatype Result<+R, +E> = Success(value: R) | Failure(error: E)

  /** Success without a value, or the text of the exception raised. */
  datatype Outcome<+E> = Pass | Fail(error: E)
}
