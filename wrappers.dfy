/** The "no result" value that the Java code expresses with a null return. */
module Wrappers {

  datatype Option<+T> = None | Some(value: T)
}
