/** The one failure-free wrapper the modules share: a value that may be missing. */
module Wrappers {
  datatype Option<+T> = None | Some(value: T)
}
