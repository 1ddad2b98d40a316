/** A value that may be absent: the model's stand-in for a nil pointer or a failed lookup. */
module Options {

  datatype Option<+T> = None | Some(value: T)
}
