/** The usual optional-value wrapper. */
module Options {
  datatype Option<T> = None | Some(value: T)
}
