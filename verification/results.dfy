/** Option and Result values used to model `undefined`-able fields and
    validation outcomes: the plain shapes only, without the failure-propagation
    members (`IsFailure`, `Extract`, ...) that `:-` would need, since nothing
    here chains fallible steps. */
module Results {

  /** `None` models a field that is `undefined`; `Some(v)` one that holds `v`. */
  datatype Option<+T> = None | Some(value: T)

  /** The outcome of a validation: the validated value, or the error reported. */
  datatype Result<+R, +E> = Success(value: R) | Failure(error: E)
}
