/** The value a lookup, a scan or a parse may lack. */
module Options {
  datatype Option<+T> = None | Some(value: T)
}
