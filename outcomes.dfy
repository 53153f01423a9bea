/** Failure-carrying values standing for Python's None and for raised exceptions. */
module Outcomes {

  /** `None` stands for Python's `None`, `Some(v)` for a present value. */
  datatype Option<+T> = None | Some(value: T)

  /** A computation that either returns a value or raises `error`. */
  datatype Result<+T, +E> = Ok(value: T) | Err(error: E)

  /** A check that either passes or raises `error`; it returns nothing. */
  datatype Outcome<+E> = Pass | Fail(error: E)
}
