/** Helper datatypes shared by the route models. */
module Wrappers {

  /** A JavaScript value that may be `undefined`. */
  datatype Option<+T> = None | Some(value: T)

  /** The outcome of a check that either passes or throws with an error value. */
  datatype Outcome<+E> = Pass | Fail(error: E)
}
