/** Failure-carrying values shared by every collector model. */
module Outcomes {

  /** A value that may be missing: a failed parse, a file that does not exist, a regex that did not match. */
  datatype Option<+T> = None | Some(value: T)
}
