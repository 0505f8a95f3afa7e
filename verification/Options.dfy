/** The optional column value used by every table of the model. */
module Options {
  datatype Option<+T> = None | Some(value: T)
}
