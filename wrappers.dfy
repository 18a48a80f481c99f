/** The optional value used for Rust's `Option<T>` fields and for "no bucket". */
module Wrappers {

  datatype Option<+T> = None | Some(value: T)
}
