/** Optional values and error-carrying results, used wherever the Python code
    returns None or raises. */
module Common {

  datatype Option<+T> = None | Some(value: T)

  datatype Result<+T, +E> = Ok(value: T) | Err(error: E)

  /** The value of an optional field, or the default where it is absent. */
  function OrElse<T>(o: Option<T>, default: T): T {
    match o
    case Some(v) => v
    case None => default
  }

  /** The exceptions the services raise, as far as the model distinguishes them. */
  datatype Error =
    | NotFound        // HTTPException(404)
    | InvalidDate     // ValueError from a `date(...)` constructor or `replace(...)`
    | ValidationError // a pydantic constraint violated while building a schema object
}
