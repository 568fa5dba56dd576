/** The optional value used wherever a lookup or a decoding step can fail. */
module Wrappers {
  datatype Option<+T> = None | Some(value: T)
}
