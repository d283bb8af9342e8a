/** Small sum types shared by the model. A report field the caller may leave
    out is an `Option`; validation answers with a `Result`. */
module Wrappers {

  /** A field that is there (`Some`) or was left out (`None`). */
  datatype Option<+T> = None | Some(value: T) {

    /** The field's value, falling back on `default` when it was left out. */
    function GetOr(default: T): T
    {
      match this
      case Some(v) => v
      case None => default
    }
  }

  /** The product of validation: the normalized value or why it was refused. */
  datatype Result<+R, +E> = Success(value: R) | Failure(error: E) {

    predicate IsFailure() {
      Failure?
    }

    function PropagateFailure<U>(): Result<U, E>
      requires Failure?
    {
      Failure(error)
    }

    function Extract(): R
      requires Success?
    {
      value
    }
  }
}
