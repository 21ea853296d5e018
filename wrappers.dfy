/** The optional value used by the stream parser. */
module Wrappers {

  datatype Option<+T> = None | Some(value: T)
}
