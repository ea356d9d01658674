/** The optional value used for Swift's `T?` fields and for parsers that may fail. */
module Wrappers {

  datatype Option<+T> = None | Some(value: T)
}
