/** Optional values: an absent optional array, or an option slot the
    Rust layer never writes. */
module Wrappers {
  datatype Option<T> = None | Some(value: T)
}
