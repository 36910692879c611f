/** The nullable references of the Java sources, as an explicit Option. */
module Wrappers {

  /** `None` stands for a Java `null` reference, `Some(v)` for a live one. */
  datatype Option<+T> = None | Some(value: T)
}
