/** The optional value used for the session's selected port index and for decoding. */
module Wrappers {
  datatype Option<+T> = None | Some(value: T)
}
