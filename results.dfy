/** Python exceptions as values: a raised exception becomes the `Raise` case
    of a `Result`, carrying the exception's class and its `str()` text. */
module Results {

  /** The exception classes the modelled code raises or passes on. Only the
      text matters to a caller that wraps it, so foreign exceptions of any
      other class are `Exception` with their `str()` text. */
  datatype Exception =
    | ValueError(message: string)
    | IndexError(message: string)
    | Exception(message: string)

  /** Either the value a Python call returned or the exception it raised. */
  datatype Result<T> = Ok(value: T) | Raise(exc: Exception)
}
