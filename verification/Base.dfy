/** The one utility type every component shares. */
module Base {
  datatype Option<+T> = None | Some(value: T)
}
