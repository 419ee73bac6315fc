/** Option and Outcome, used for nullable values and for errors a call may raise. */
module Wrappers {

  /** A value that may be absent: JavaScript's `null`/`undefined` after normalisation. */
  datatype Option<+T> = None | Some(value: T)

  /** The completion of a call that returns nothing or raises an error. */
  datatype Outcome<+E> = Pass | Fail(error: E)
}
