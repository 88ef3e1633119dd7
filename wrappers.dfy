/** Failure-carrying results of the collaborators the strategy calls. */
module Wrappers {

  /** An error value as the Go code passes it around; only its identity matters. */
  datatype Error = Error(message: string)

  /** `nil` or a non-nil `error`. */
  datatype Option<+T> = None | Some(value: T)

  /** A value together with a nil error, or a non-nil error. */
  datatype Result<+T> = Ok(value: T) | Err(error: Error)

  /** The `error` half of a Go `(value, error)` pair. */
  function ErrorOf<T>(r: Result<T>): (e: Option<Error>)
    ensures e.None? <==> r.Ok?
    ensures r.Err? ==> e == Some(r.error)
  {
    match r
    case Ok(_) => None
    case Err(err) => Some(err)
  }
}
