/** The optional value used throughout the model for nullable references and
    for "maybe emitted" events. */
module Options {
  datatype Option<+T> = None | Some(value: T)
}
