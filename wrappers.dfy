/** Swift's `Optional`, used for the file names a page layer may lack. */
module Wrappers {
  datatype Option<+T> = None | Some(value: T)
}
