/** The optional value Rust writes `Option<T>`. */
module Options {
  datatype Option<+T> = None | Some(value: T)
}
