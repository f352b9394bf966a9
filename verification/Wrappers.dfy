/** Failure and absence, as the source expresses them with error results and nil. */
module Wrappers {

  datatype Option<+T> = None | Some(value: T)

  datatype Result<+T, +E> = Success(value: T) | Failure(error: E)

  /** The errors the transport can report. */
  datatype Error =
    | ErrInvalidAddress
    | ErrInvalidDatagram
    | ErrServerClosed
    | ErrInvalidEncoder
    | ErrInvalidDecoder
    | ErrSocket
    | ErrPoller
    | ErrAllocator
    | ErrClose
    | ErrUser(code: int)
}
