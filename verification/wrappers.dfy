/** The optional-value and result wrappers used throughout the model.
    Go's `(value, error)` pairs become `Result`; Go's `(value, ok)` lookups
    and nil-able pointers become `Option`. */
module Wrappers {

  datatype Option<+T> = None | Some(value: T)

  /** A Go call returning `(v, nil)` is `Success(v)`; one returning
      `(zero, err)` is `Failure(err)`. */
  datatype Result<+R, +E> = Success(value: R) | Failure(error: E) {

    /** The success value, if any, dropping the error. */
    function ToOption(): (o: Option<R>)
      ensures o.Some? <==> Success?
      ensures o.Some? ==> o.value == value
    {
      match this
      case Success(v) => Some(v)
      case Failure(_) => None
    }
  }
}
