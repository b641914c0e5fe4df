/** The option and result types shared by the client and the exporter. */
module Wrappers {

  /** A value that may be absent: a JSON body that did not decode, a timestamp that did not parse. */
  datatype Option<+T> = None | Some(value: T)

  /** The outcome of an operation that returns a value or a Go `error`. */
  datatype Result<+T, +E> = Success(value: T) | Failure(error: E)
}
