/** Failure-carrying wrappers shared by the other modules. */
module Wrappers {

  /** A value that may be absent: JavaScript's `undefined`/`null` for a lookup or an optional field. */
  datatype Option<+T> = None | Some(value: T)
}
