/** The optional value the editing model returns where the Java code returns
    `com.google.common.base.Optional`. */
module Wrappers {

  datatype Option<+T> = None | Some(value: T)
}
