/** Values shared by the backend and the frontend models: optional values, the
    HTTP errors the FastAPI routes raise, and Python's truthiness of optional
    query parameters. */
module Common {

  datatype Option<+T> = None | Some(value: T) {
    function GetOr(default: T): T {
      match this
      case Some(v) => v
      case None => default
    }
  }

  /** An `HTTPException(status_code, detail)` raised by a route or a service. */
  datatype HttpError = HttpError(code: int, detail: string)

  datatype Result<+T> = Ok(value: T) | Err(error: HttpError)

  /** A field of a partial-update body (`model_dump(exclude_unset=True)`):
      either left out of the request or sent with a value. */
  datatype Field<+T> = Unset | Set(value: T) {
    /** The value a `setattr` loop leaves in a column that held `current`. */
    function Or(current: T): T {
      match this
      case Set(v) => v
      case Unset => current
    }
  }

  /** The outcome of validating a request body: the parsed value, or the
      messages of every validator that failed, in field order. */
  datatype Checked<+T> = Accepted(value: T) | Rejected(errors: seq<string>)

  /** `if x:` on an optional string: None and "" are both false. */
  predicate TruthyStr(x: Option<string>) {
    x.Some? && x.value != ""
  }

  /** `if x:` on an optional int: None and 0 are both false. */
  predicate TruthyInt(x: Option<int>) {
    x.Some? && x.value != 0
  }
}
