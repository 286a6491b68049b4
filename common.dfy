/** Small value types shared by the service model and the two client models. */
module Common {

  /** An optional value: a missing JSON member, form part or chosen file. */
  datatype Option<+T> = None | Some(value: T)

  /** The outcome of a check that either passes a value on or stops with an error. */
  datatype Result<+R, +E> = Success(value: R) | Failure(error: E)

  function Min(a: int, b: int): int { if a <= b then a else b }

  function Max(a: int, b: int): int { if a >= b then a else b }
}
