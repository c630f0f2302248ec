/** Option and Outcome: a null function slot, and an operation that may throw. */
module Wrappers {

  /** A value that may be absent; `None` stands for a null pointer. */
  datatype Option<+T> = None | Some(value: T)

  /** The result of an operation that either completes or throws `error`. */
  datatype Outcome<+E> = Pass | Fail(error: E)
}
