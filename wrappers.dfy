/** The optional value a lookup returns when it may find nothing. */
module Wrappers {

  datatype Option<+T> = None | Some(value: T)
}
