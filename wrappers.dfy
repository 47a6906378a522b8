/** The optional value used for absent attributes and failed parses. */
module Wrappers {
  datatype Option<+T> = None | Some(value: T)
}
