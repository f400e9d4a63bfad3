/** A value that may be absent, where the Go code returns an ok flag, a nil or an error. */
module Options {
  datatype Option<+T> = None | Some(value: T)
}
