/** The optional value used for entity lookups that may find nothing. */
module Wrappers {

  datatype Option<+T> = None | Some(value: T)
}
