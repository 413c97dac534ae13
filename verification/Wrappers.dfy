/** A result that may be missing: null, undefined, or the outcome of an operation that throws. */
module Wrappers {
  datatype Option<+T> = None | Some(value: T)
}
