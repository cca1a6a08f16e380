/** Failure-carrying wrappers shared by every module of the model. */
module Wrappers {
  /** A value that may be absent: JavaScript's `undefined`/`null`, a missing document. */
  datatype Option<+T> = None | Some(value: T)
}
