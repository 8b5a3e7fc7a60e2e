/** Failure-carrying values used throughout the model.
- Option<T>: a value that may be absent (a decoder that rejects its input).
- Result<T, E>: a storage call that either yields a value or a Go `error`.
- Run<T>: how a Go call ends — it returns, it panics, or it ends the process.
Option and Run can be used with `:-`.
 */
module Wrappers {

  datatype Option<+T> = None | Some(value: T) {

    predicate IsFailure() {
      None?
    }

    function PropagateFailure<U>(): Option<U>
      requires None?
    {
      None
    }

    function Extract(): T
      requires Some?
    {
      value
    }
  }

  datatype Result<+T, +E> = Success(value: T) | Failure(error: E)

  /** The three ways a Go call ends. A panic inside a request handler is
      caught by the router's Recoverer middleware and answered with a 500;
      `log.Fatal` ends the whole server process. */
  datatype Run<+T> = Returns(value: T) | Panics(panicReason: string) | Exits(exitReason: string) {

    predicate IsFailure() {
      !Returns?
    }

    function PropagateFailure<U>(): Run<U>
      requires !Returns?
    {
      if Panics? then Panics(panicReason) else Exits(exitReason)
    }

    function Extract(): T
      requires Returns?
    {
      value
    }
  }
}
