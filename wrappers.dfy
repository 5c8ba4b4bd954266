/** Optional values, standing for JavaScript's `undefined` and Rust's `Option`/`Result` outcomes. */
module Wrappers {
  datatype Option<+T> = None | Some(value: T)
}
