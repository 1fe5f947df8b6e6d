/** A value that may be absent, such as an environment variable that is not set. */
module Wrappers {

  datatype Option<+T> = None | Some(value: T)
}
