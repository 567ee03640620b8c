/**
 * Shared value types: the optional value that stands for a Java/C++ reference
 * that may be null, and the exceptions the framework code throws or lets
 * escape.
 */
module Wrappers {

  /** A reference that may be null. */
  datatype Option<+T> = None | Some(value: T)

  /** The Java exceptions that escape the modelled methods. */
  datatype Exception =
    | UnsupportedOperation   // java.lang.UnsupportedOperationException
    | IllegalState           // java.lang.IllegalStateException
    | Runtime                // java.lang.RuntimeException
    | IndexOutOfBounds       // java.lang.ArrayIndexOutOfBoundsException
    | NullPointer            // java.lang.NullPointerException

  /** Either a returned value or an escaping exception. */
  datatype Result<+T> = Ok(value: T) | Threw(error: Exception)
}
