/** Option, the model's stand-in for Rust's `Option` and for searches whose
    failure ends the program with a panic. */
module Wrappers {

  datatype Option<+T> = None | Some(value: T)

}
