/** The optional-value datatype used for JSON fields that may be absent and
    for the exception that the body of run() may raise. */
module Wrappers {

  datatype Option<+T> = None | Some(value: T)
}
