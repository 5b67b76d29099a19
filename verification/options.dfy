/** The usual optional value, for fields the handlers may leave out. */
module Options {
  datatype Option<+T> = None | Some(value: T)
}
