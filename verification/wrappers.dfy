/** Small failure-compatible datatypes shared by the rest of the model. */
module Wrappers {

  /** An optional value. */
  datatype Option<+T> = None | Some(value: T) {
    /** The contained value, or `default` when there is none. */
    function GetOr(default: T): T {
      match this
      case Some(v) => v
      case None => default
    }
  }

  /** Either a value or an error; usable with `:-`. An error stands for a
      raised exception and carries the exception's text (`str(e)`). */
  datatype Result<+T, +E> = Success(value: T) | Failure(error: E) {
    predicate IsFailure() {
      Failure?
    }

    function PropagateFailure<U>(): Result<U, E>
      requires Failure?
    {
      Failure(error)
    }

    function Extract(): T
      requires Success?
    {
      value
    }
  }

  /** A keyed field of a JSON-like object: the key may be missing, present
      with the value `null`, or present with a value. */
  datatype Field<+T> = Absent | Null | Present(value: T)
}
