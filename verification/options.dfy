/** A value that may be absent: JavaScript's `undefined` / `null` where the
    source reads an optional field or a failed network result. */
module Options {

  datatype Option<+T> = None | Some(value: T) {

    /** The value, or `default` when absent (JavaScript's `x ?? default`). */
    function GetOr(default: T): T {
      match this
      case Some(v) => v
      case None => default
    }
  }
}

/** Responses of the Express route handlers: a JSON body, or an HTTP error
    status with the fixed `{ error: ... }` message of that handler. */
module Http {

  datatype Response<+T> = Ok(body: T) | Fail(status: int, error: string)

  const NotFound := 404
  const Unauthorized := 401
  const ServerError := 500
}
