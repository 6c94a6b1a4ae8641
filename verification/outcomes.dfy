/** Option and Result values used for Java's nullable references and thrown exceptions. */
module Outcomes {

  datatype Option<+T> = None | Some(value: T)

  /** Success carries a computed value; Failure carries the exception that escaped. */
  datatype Result<+R, +E> = Success(value: R) | Failure(error: E)
}
