/** The optional value used for a routing answer that may be missing. */
module Wrappers {

  datatype Option<+T> = None | Some(value: T)
}
