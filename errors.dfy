/** Option and Result wrappers, the Python exceptions the bot raises or lets
    escape, and the text that `str(e)` gives for each of them. */
module Errors {
  import opened Text

  type UserId = nat

  datatype Error =
    | IndexError                      // a list indexed past its end
    | StrIndexError                   // a string indexed past its end
    | KeyError(key: UserId)           // a user missing from macro_map or exports
    | ValueError(literal: string)     // int() of something that is not a number
    | TypeError(item: nat, typeName: string) // "\n".join of a log holding a non-string
    | AttributeError(typeName: string) // .keys() called on a state that is not a mapping
    | PickleError(typeName: string)   // pickle.dump meeting an object of the engine
    | FileNotFound(name: string)      // a usercode/ file that does not exist
    | EngineError(message: string)    // exception thrown by the script engine
    | Raised(message: string)         // raise Exception(message)

  datatype Option<T> = None | Some(value: T)

  datatype Result<T> = Ok(value: T) | Err(error: Error)

  datatype Outcome = Pass | Fail(error: Error)

  /** str(e) as the bot writes it back into the channel. */
  function ErrorText(e: Error): string {
    match e
    case IndexError => "list index out of range"
    case StrIndexError => "string index out of range"
    case KeyError(k) => NatToString(k)
    case ValueError(lit) => "invalid literal for int() with base 10: '" + lit + "'"
    case TypeError(i, t) => "sequence item " + NatToString(i) + ": expected str instance, " + t + " found"
    case AttributeError(t) => "'" + t + "' object has no attribute 'keys'"
    case PickleError(t) =>
      "Pickling of \"" + t + "\" instances is not enabled (http://www.boost.org/libs/python/doc/v2/pickle.html)"
    case FileNotFound(name) => "[Errno 2] No such file or directory: 'usercode/" + name + "'"
    case EngineError(m) => m
    case Raised(m) => m
  }
}
