/** A value that may be absent, as Python's None and Java's null are used in the repository. */
module Optional {
  datatype Option<+T> = None | Some(value: T)
}
