/** Absent-or-present values (Java's nullable references) and pass-or-fail outcomes
    (a call that returns normally or throws). */
module Wrappers {

  /** A value that may be absent, standing for a nullable Java reference. */
  datatype Option<+T> = None | Some(value: T)

  /** The result of a call that returns nothing: it completes, or it fails with an error. */
  datatype Outcome<+E> = Pass | Fail(error: E)
}
