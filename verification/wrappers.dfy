/** Optional values, used where the Java code holds a nullable reference. */
module Wrappers {

  /** `None` plays the role of Java's `null`. */
  datatype Option<+T> = None | Some(value: T)
}
