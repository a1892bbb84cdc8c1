/** The Option type used for Rust's `Option` and for fallible calls such as `push_str`. */
module Wrappers {
  datatype Option<+T> = None | Some(value: T)
}
