/** Failure-compatible wrappers used by every handler of the ledger. */
module Wrappers {

  /** A value that may be absent (a JavaScript `null`/`undefined`). */
  datatype Option<+T> = None | Some(value: T)

  /** The outcome of a request handler: the reply, or the error it answers with. */
  datatype Result<+R, +E> = Success(value: R) | Failure(error: E)
}
