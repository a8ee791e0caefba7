/** Rust's `Option`, used by the lookups of the library (an index that may be absent, a layout that may not match). */
module Wrappers {
  datatype Option<+T> = None | Some(value: T)
}
