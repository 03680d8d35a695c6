/** The optional value used throughout the notifier model. */
module Options {
  datatype Option<+T> = None | Some(value: T)
}
