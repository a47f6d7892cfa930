/** The wrapper the model uses for Go's (value, ok) pairs. */
module Options {
  datatype Option<+T> = None | Some(value: T)
}
