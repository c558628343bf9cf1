/** A value that may be missing, for the optional parts of JavaScript objects. */
module Wrappers {

  datatype Option<+T> = None | Some(value: T)
}
