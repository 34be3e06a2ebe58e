/** A value or none: optional values and constructors that may refuse. */
module Options {
  datatype Option<T> = None | Some(value: T)
}
