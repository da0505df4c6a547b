/** Option and Result, the failure-compatible wrappers the model uses for Java's
    null references and thrown exceptions. */
module Wrappers {

  datatype Option<+T> = None | Some(value: T) {
    function GetOr(default: T): T {
      match this
      case Some(v) => v
      case None => default
    }
  }

  datatype Result<+R, +E> = Success(value: R) | Failure(error: E)
}

/** The Java throwables that the modelled code raises, catches or stores. */
module Exceptions {

  /** `Error` is a `java.lang.Error` (OutOfMemoryError, NoClassDefFoundError, ...),
      which a `catch (Exception e)` does not catch; every other case is an Exception. */
  datatype Throwable =
    | Thrown(name: string)                 // an Exception raised by a collaborator: transport, serializer, NLP engine
    | Error(name: string)                  // a java.lang.Error raised by a collaborator
    | RuntimeException(cause: Throwable)   // new RuntimeException(t)
    | NullPointerException
    | NumberFormatException(input: string)
    | IllegalStateException(message: string)
    | IndexOutOfBoundsException
    | ClassCastException
}
