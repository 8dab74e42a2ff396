/** Values shared by the three backends: an optional value, and the
    `HTTPException` that an endpoint raises, as an error result. */
module Http {

  datatype Option<T> = None | Some(value: T) {
    /** The `dict.get(key, default)` reading of an optional value. */
    function GetOr(default: T): T {
      match this
      case Some(v) => v
      case None => default
    }
  }

  /** An `HTTPException(status_code, detail)`. */
  datatype HttpError = HttpError(status: int, detail: string)

  /** What an endpoint hands back: its response, or the exception it raises. */
  datatype Result<T> = Ok(value: T) | Err(error: HttpError)
}
