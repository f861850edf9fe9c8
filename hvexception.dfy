/**
 * Python's exceptions and `None` as values (lib/hvexception.py and the
 * built-in errors the core raises).
 */
module HvException {
  /** `HVException(msg)` is what the step runner catches; `PyError` stands
      for any other Python exception (`AttributeError`, `NameError`,
      `ValueError`, `IndexError`, `KeyError`, `TypeError`, ...), which it
      does not catch. */
  datatype Exc = HVException(msg: string) | PyError(kind: string, msg: string)

  /** `str(ex)`: the message the exception was raised with. */
  function Str(e: Exc): string { e.msg }

  /** A Python call: it returns a value or raises. */
  datatype Outcome<+T> = Ok(value: T) | Raise(exc: Exc) {
    predicate IsFailure() { Raise? }
    function PropagateFailure<U>(): Outcome<U> requires Raise? { Raise(exc) }
    function Extract(): T requires Ok? { value }
  }

  /** Python's `None` or a value. */
  datatype Option<+T> = None | Some(value: T)

  /** Reading a field of a credential section that is `None`. */
  function NoneAttribute(field: string): Exc {
    PyError("AttributeError", "'NoneType' object has no attribute '" + field + "'")
  }

  /** `raise HVException(f"Exception captured: {ex}")`. */
  function Captured(e: Exc): Exc { HVException("Exception captured: " + Str(e)) }
}
