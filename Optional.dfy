/** The optional value used wherever the source has a nullable value (`T | null`). */
module Optional {
  datatype Option<+T> = None | Some(value: T)
}
