/** Rust's `Option` and `Result`. Every place where the source panics
    (an `unwrap` of nothing, an integer that leaves its width, a `panic!`)
    is modelled as an `Err` result instead of an abort. */
module Wrappers {

  datatype Option<+T> = None | Some(value: T)

  datatype Result<+T, +E> = Ok(value: T) | Err(error: E)
}
