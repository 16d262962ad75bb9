/** Shared vocabulary of the batch processor model: optional values, the exception
    classes the processor raises or catches, results that carry either a value or an
    exception, and the untyped values held by the dictionaries of engine configuration
    and flow state. */
module Common {

  datatype Option<+T> = None | Some(value: T) {
    /** The value, or `default` when there is none (Python's `x or default` on `None`). */
    function GetOr(default: T): T {
      match this
      case Some(v) => v
      case None => default
    }
  }

  /** Exception classes that reach the modelled code. */
  datatype ErrorKind =
    | ValueError               // builtin; raised by discovery, the factory and the validators
    | OSError                  // builtin; filesystem failures
    | KeyError                 // builtin; a missing dictionary key
    | ExtractionError          // exceptions.ExtractionError
    | ConfigurationError       // exceptions.ConfigurationError
    | ValidationError          // exceptions.ValidationError (not a ValueError)
    | PydanticValidationError  // pydantic's ValidationError, a subclass of ValueError
    | OtherError(typeName: string)

  /** A raised exception: its class and `str(e)`. */
  datatype Error = Error(kind: ErrorKind, message: string)

  /** Either a returned value or a raised exception. */
  datatype Result<+T> = Ok(value: T) | Err(error: Error) {
    predicate IsFailure() {
      Err?
    }

    function PropagateFailure<U>(): Result<U>
      requires Err?
    {
      Err(error)
    }

    function Extract(): T
      requires Ok?
    {
      value
    }
  }

  /** True when an `except ValueError` clause catches exceptions of this kind. */
  predicate IsValueError(k: ErrorKind) {
    k == ValueError || k == PydanticValidationError
  }

  /** A Python value as stored in a `Dict[str, Any]`. */
  datatype Value = VNone | VBool(b: bool) | VInt(i: int) | VReal(r: real) | VStr(s: string)

  type Dict = map<string, Value>

  /** The image extensions used when none are configured: the processor's fallback, the
      configuration default, and the list the flow discovers with. */
  const DefaultExtensions: seq<string> := [".jpg", ".jpeg", ".png", ".tiff", ".bmp"]
}
