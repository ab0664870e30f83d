/** Java's nullable references and Optional values, and the exceptions the adapter throws. */
module Wrappers {

  /** Optional<T>, or a reference that may be null. */
  datatype Option<+T> = None | Some(value: T)

  /** The result of a void method that may throw an exception of type E. */
  datatype Outcome<+E> = Pass | Fail(error: E)
}
