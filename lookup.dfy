/**
 * Keys, errors and results shared by the value types of the model.
 *
 * Every `__getitem__` of the system accepts either an integer ordinal or a
 * string alias. A key that no branch recognises reaches a statement of the
 * form `raise KeyError("The key " + key + " is unsupported")`: for a string
 * key that raises the intended `KeyError`, but for an integer key the string
 * concatenation itself fails first and a `TypeError` escapes instead.
 */
module Lookup {

  /** A key as the dispatchers receive it: an integer ordinal or a string alias. */
  datatype Key = Int(i: int) | Str(s: string)

  /** The Python exceptions the modelled code can raise. */
  datatype Error =
    | KeyError
    | TypeError
    | IndexError
    | AttributeError
    | ZeroDivisionError
    | ValueError

  datatype Result<+T> = Ok(value: T) | Err(error: Error)

  datatype Option<+T> = None | Some(value: T)

  /** The exception that `raise KeyError("The key " + key + " is unsupported")` ends in. */
  function Unsupported(key: Key): (e: Error)
    ensures e == KeyError <==> key.Str?
    ensures e == TypeError <==> key.Int?
  {
    match key
    case Int(_) => TypeError
    case Str(_) => KeyError
  }
}
