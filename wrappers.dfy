/** The optional value used for configured-or-absent hooks and for a response body. */
module Wrappers {

  datatype Option<+T> = None | Some(value: T)
}
