/** The optional value used for fields that a stored record or a message may lack. */
module Wrappers {

  datatype Option<+T> = None | Some(value: T)
}
