/** Small failure-carrying datatypes shared by the other modules. */
module Wrappers {

  /** A value that may be missing, e.g. a secret that is not configured. */
  datatype Option<+T> = None | Some(value: T)

  /** The result of a Python expression that either evaluates to a value or
      raises an exception.  Which exception is raised never matters to the
      program: every one of them ends in the same catch-all handler. */
  datatype Raising<+T> = Returns(value: T) | Raises
}
