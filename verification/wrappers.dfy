/** The optional value used for catalog lookups and for the alert an operation may raise. */
module Wrappers {

  datatype Option<+T> = None | Some(value: T)
}
