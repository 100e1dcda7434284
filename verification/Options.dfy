/** The usual optional value, used where the source has `null`, `undefined` or a missing map entry. */
module Options {
  datatype Option<+T> = None | Some(value: T)
}
