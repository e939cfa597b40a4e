module Optional {

  /** A value, or none: a nil pointer, a zero time, a refusal. */
  datatype Option<+T> = None | Some(value: T)
}
