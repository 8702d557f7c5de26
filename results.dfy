/** Failure-compatible wrappers shared by the decoders: an optional value and
    a decode result whose failure is one of the library's unmarshaling errors. */
module Results {

  datatype Option<+T> = None | Some(value: T)

  /** The errors a decode can raise. `actual` describes the offending value:
      the kind of value found (for a wrong type) or the text itself (for a
      string the date parser could not read). */
  datatype MarshalError =
    | KeyNotFound(key: string)
    | NullValue(key: string)
    | TypeMismatch(expected: string, actual: string)

  /** A decode outcome; usable with `:-`, which plays the part of `try`. */
  datatype Result<+T> = Ok(value: T) | Err(error: MarshalError) {

    predicate IsFailure() {
      Err?
    }

    function PropagateFailure<U>(): Result<U>
      requires Err?
    {
      Err(error)
    }

    function Extract(): T
      requires Ok?
    {
      value
    }

    /** `(try? e) ?? default`: any failure becomes the default. */
    function GetOr(default: T): T
    {
      match this
      case Ok(v) => v
      case Err(_) => default
    }
  }
}
