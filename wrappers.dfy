/** The optional-value type shared by the other modules (Rust's `Option`). */
module Wrappers {
  datatype Option<+T> = None | Some(value: T)
}
