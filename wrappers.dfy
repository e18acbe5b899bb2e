/** The optional value used for map lookups and message slots. */
module Wrappers {
  datatype Option<+T> = None | Some(value: T)
}
