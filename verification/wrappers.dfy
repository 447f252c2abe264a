/** Option and Result: the two failure-carrying shapes the chat model needs.
    `None` plays the role of JavaScript's `null`/`undefined`; `Failure` the role
    of a thrown exception. */
module Wrappers {

  datatype Option<+T> = None | Some(value: T) {

    /** The value in `Some`, or `default` when there is none. */
    function GetOr(default: T): T {
      match this
      case Some(v) => v
      case None => default
    }
  }

  datatype Result<+R, +E> = Success(value: R) | Failure(error: E)
}
