/** The optional value shared by every module: TypeScript's `T | null` and Rust's `Option<T>`. */
module Wrappers {
  datatype Option<T> = None | Some(value: T)
}
