/** Failure-carrying results and the numeric subset types shared by every module. */
module Wrappers {

  datatype Option<+T> = None | Some(value: T)

  datatype Result<+T, +E> = Ok(value: T) | Err(error: E)

  /** Prices, leverages and traded quantities. */
  type Positive = x: real | x > 0.0 witness 1.0

  /** A number of contracts. */
  type Quantity = x: real | x >= 0.0

  function Max(a: int, b: int): int { if a < b then b else a }

  function Min(a: int, b: int): int { if a < b then a else b }
}
