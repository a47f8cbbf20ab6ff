/** The conventional optional value, in the place of the source's `None`. */
module Options {
  datatype Option<+T> = None | Some(value: T)
}
