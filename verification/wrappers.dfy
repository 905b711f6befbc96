/** A nullable reference of the source: Java's `null` is `None`. */
module Wrappers {

  datatype Option<+T> = None | Some(value: T)
}
