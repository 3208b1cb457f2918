/** The conventional optional-value datatype, used for optional arguments and partial parsers. */
module Options {
  datatype Option<+T> = None | Some(value: T)
}
