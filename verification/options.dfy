/** The optional value used for store lookups and error slots. */
module Options {
  datatype Option<+T> = None | Some(value: T)
}
