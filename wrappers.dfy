/** Optional values and pass/fail outcomes, used where the source returns
    `undefined` or throws. */
module Wrappers {

  datatype Option<+T> = None | Some(value: T)

  /** The result of an operation that either completes or throws an error
      carrying a message. */
  datatype Outcome<+E> = Pass | Fail(error: E)
}
