/** Go's error values as the service sees them.

    A Go `error` is either nil or a value; here an `Option<Error>` stands for a
    result that may be nil. `Wrap` follows github.com/pkg/errors: wrapping a nil
    error gives nil, which is what makes `recognize` report "no face" with a nil
    error (api.go:152-153). */
module Errors {

  datatype Option<+T> = None | Some(value: T)

  datatype Result<+T, +E> = Success(value: T) | Failure(error: E)

  /** The two causes strconv reports in a NumError. */
  datatype NumErrorKind = ErrSyntax | ErrRange

  datatype Error =
    | EngineError(reason: string)                       // any failure inside the face engine
    | FsError(reason: string)                           // a failed directory read
    | NumError(fn: string, num: string, kind: NumErrorKind)  // strconv's *NumError
    | Wrapped(message: string, cause: Error)            // errors.Wrap / errors.Wrapf

  /** errors.Wrap(err, message): nil stays nil, anything else gains a message. */
  function Wrap(err: Option<Error>, message: string): (r: Option<Error>)
    ensures r.None? <==> err.None?
    ensures err.Some? ==> r.value.Wrapped? && r.value.cause == err.value && r.value.message == message
  {
    match err
    case None => None
    case Some(e) => Some(Wrapped(message, e))
  }
}
