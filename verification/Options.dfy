/** The Some/None type that stands for Go's "value, ok" results and for a step that is not enabled. */
module Options {
  datatype Option<+T> = None | Some(value: T)
}
