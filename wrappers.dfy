/** The optional value of Rust's `Option`: a handle that may fail to resolve. */
module Wrappers {

  datatype Option<+T> = None | Some(value: T)
}
