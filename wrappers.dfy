/** The optional value and the outcome type shared by the valuation modules. */
module Wrappers {

  /** An optional value: `None` stands for JavaScript's `undefined`. */
  datatype Option<+T> = None | Some(value: T)

  /** The outcome of an operation that may reject its input. */
  datatype Result<+R, +E> = Success(value: R) | Failure(error: E)
}
