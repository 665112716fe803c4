/** The optional value used for nullable columns and missing parses. */
module Wrappers {
  datatype Option<+T> = None | Some(value: T)
}
