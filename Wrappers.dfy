/** A value that may be absent; stands for JavaScript's `null` in an optional state slot. */
module Wrappers {

  datatype Option<+T> = None | Some(value: T)
}
