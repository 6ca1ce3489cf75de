/** Failure-carrying values shared by every module, and the Python exceptions
    the modelled code can raise. An exception that the source never catches
    becomes an `Err` that callers pass on unchanged. */
module Results {

  datatype Option<+T> = None | Some(value: T) {
    function GetOr(default: T): T {
      match this
      case Some(v) => v
      case None => default
    }
  }

  datatype Result<+T, +E> = Ok(value: T) | Err(error: E) {
    predicate IsFailure() {
      Err?
    }

    function PropagateFailure<U>(): Result<U, E>
      requires Err?
    {
      Err(error)
    }

    function Extract(): T
      requires Ok?
    {
      value
    }
  }

  /** The Python exceptions that can escape from the modelled functions. */
  datatype PyError =
    | TypeError                           // a callable given the wrong number of arguments
    | KeyError(key: string)               // a dict lookup of a missing key
    | IndexError                          // `x[0]` on an empty str or list
    | ValueError                          // an enum value or prompt type that is not accepted
    | AttributeError(name: string)        // `getattr` of an attribute that does not exist
    | FileNotFoundError                   // `open` or exec of a file that does not exist
    | JsonDecodeError                     // a file that exists but does not hold the expected JSON
    | CalledProcessError(returncode: int) // `check_output` of a command that exits non-zero
    | InvalidVersion(text: string)        // `version.parse` of a string that is not a version
}
