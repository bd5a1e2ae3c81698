/** The usual Some/None datatype, for fields that are None in the source. */
module Options {
  datatype Option<+T> = None | Some(value: T)
}
