/** Failure-compatible wrappers shared by the whole model. */
module Common {

  datatype Option<+T> = None | Some(value: T)

  datatype Result<+R, +E> = Success(value: R) | Failure(error: E)

  function Max(a: real, b: real): real
  {
    if a >= b then a else b
  }
}
