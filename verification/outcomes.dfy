/** Failure-carrying values shared by every part of the model: an optional
    value, a success-or-error result, and the exceptions the Python code
    raises, catches and re-wraps. */
module Outcomes {

  datatype Option<+T> = None | Some(value: T)

  datatype Result<+T, +E> = Ok(value: T) | Err(error: E)

  /** The exception classes the handlers tell apart. A subclass the code
      never distinguishes is filed under its nearest distinguished base
      class (a `UnicodeDecodeError` is a `ValueError` here). */
  datatype ExcKind =
    | ValueError
    | FileNotFoundError
    | OSError
    | KeyError
    | RuntimeError
    | OtherException

  /** A raised exception: its class and `str(e)`. */
  datatype Exc = Exc(kind: ExcKind, text: string)

  /** What a Python call does: return a value or raise. */
  datatype Outcome<+T> = Returned(value: T) | Raised(exc: Exc)

  /** `str(KeyError(key))` is the key's repr. For a key with no quote,
      backslash or non-printable character, such as every key this code
      looks up, that is the key in single quotes. */
  function KeyErrorText(key: string): (r: string)
    ensures |r| == |key| + 2 && r[0] == '\'' && r[|r| - 1] == '\''
    ensures r[1..|r| - 1] == key
  {
    "'" + key + "'"
  }

  /** An `except (ValueError, FileNotFoundError)` clause catches the
      exception. */
  predicate IsValueOrFileNotFound(k: ExcKind) {
    k == ValueError || k == FileNotFoundError
  }
}
