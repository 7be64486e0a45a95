/** The optional value used for the answer text field, which may hold no number. */
module Wrappers {

  datatype Option<+T> = None | Some(value: T)
}
