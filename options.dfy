/** The usual optional-value datatype, used for the image model's not-yet-loaded layers. */
module Options {
  datatype Option<+T> = None | Some(value: T)
}
