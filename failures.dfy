/**
 * Python exceptions as the routes see them. The routes classify an exception
 * only by two things: whether it is a `ValueError` (pydantic's
 * `ValidationError` and `json.JSONDecodeError` are subclasses of it) and which
 * substrings its class name contains; `str(e)` is its message.
 */
module Failures {
  import opened Text

  datatype Exception = Exception(typeName: string, isValueError: bool, message: string)

  /** `raise ValueError(message)`. */
  function ValueError(message: string): Exception
  {
    Exception("ValueError", true, message)
  }

  /** `json.JSONDecodeError`, raised by `json.loads`. */
  function JsonDecodeError(message: string): Exception
  {
    Exception("JSONDecodeError", true, message)
  }

  /** pydantic's `ValidationError`, raised when a model is built from bad fields. */
  function ValidationError(message: string): Exception
  {
    Exception("ValidationError", true, message)
  }

  /** `TypeError`, e.g. `Model(**x)` on something that is not a mapping, or iterating `None`. */
  function TypeError(message: string): Exception
  {
    Exception("TypeError", false, message)
  }

  /** `AttributeError`, e.g. `.get` on a decoded value that is not a dict. */
  function AttributeError(message: string): Exception
  {
    Exception("AttributeError", false, message)
  }

  /**
   * The `if "NotFound" in error_type ... elif ... else` chain both routes run
   * on `type(e).__name__`.
   */
  function StatusByName(typeName: string): (status: int)
    ensures status in {404, 503, 403, 500}
    ensures status == 404 <==> Contains(typeName, "NotFound")
    ensures status == 503 <==> !Contains(typeName, "NotFound") && Contains(typeName, "Maintenance")
    ensures status == 403 <==> !Contains(typeName, "NotFound") && !Contains(typeName, "Maintenance")
                               && Contains(typeName, "Forbidden")
  {
    if Contains(typeName, "NotFound") then 404
    else if Contains(typeName, "Maintenance") then 503
    else if Contains(typeName, "Forbidden") then 403
    else 500
  }

  /** A class name without the initials of the three signals goes to the last branch. */
  lemma NoSignal(name: string)
    requires 'N' !in name && 'M' !in name && 'F' !in name
    ensures StatusByName(name) == 500
  {
    ContainsInitial(name, "NotFound");
    ContainsInitial(name, "Maintenance");
    ContainsInitial(name, "Forbidden");
  }

  /** A plain `ValueError`'s class name matches none of the three signals. */
  lemma ValueErrorStatus()
    ensures StatusByName(ValueError("").typeName) == 500
  {
    NoSignal("ValueError");
  }

  /** Nor does `TypeError`'s. */
  lemma TypeErrorStatus()
    ensures StatusByName(TypeError("").typeName) == 500
  {
    NoSignal("TypeError");
  }

  /** Nor does `AttributeError`'s. */
  lemma AttributeErrorStatus()
    ensures StatusByName(AttributeError("").typeName) == 500
  {
    NoSignal("AttributeError");
  }
}
