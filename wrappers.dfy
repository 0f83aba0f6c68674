/**
 * Option, the model's stand-in for Go's nil-able pointers and interfaces, and Result for
 * a value-or-error pair of which exactly one is set.
 */
module Wrappers {

  datatype Option<+T> = None | Some(value: T)

  datatype Result<+T, +E> = Success(value: T) | Failure(error: E)

  /** Smaller of two naturals. */
  function Min(a: nat, b: nat): nat
  {
    if a <= b then a else b
  }
}
