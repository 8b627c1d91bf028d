/** Option and Result, and the fatal outcomes of the option parser.

    The Go code reports every fatal condition by panicking or by calling
    PrintUsageAndExit, which never returns; here each such condition is an
    `Err` carrying the kind of failure. Message texts are not modelled. */
module Wrappers {

  datatype Option<+T> = None | Some(value: T)

  /** The fatal outcomes, one per distinct panic or usage-exit in the source. */
  datatype Failure =
    | NoParse               // an option line does not have the line shape
    | DuplicateName         // a name is registered twice
    | BadName               // a name is "", "-" or "--"
    | UnexpectedValue       // a non-option token while unknown values are fatal
    | UnknownOption         // an unregistered option while unknown options are fatal
    | MissingArgument       // an argument option without a value
    | UnexpectedArgument    // a value reaching an option that takes none
    | BadInteger            // GetInt on a value that is not an integer
    | UnknownCanonical      // Get/Have on a name that is not a canonical name
    | NotAnArgumentOption   // GetAll found a matching log entry without a value

  datatype Result<+T> = Ok(value: T) | Err(error: Failure) {
    predicate IsFailure() {
      Err?
    }

    function PropagateFailure<U>(): Result<U>
      requires Err?
    {
      Err(error)
    }

    function Extract(): T
      requires Ok?
    {
      value
    }
  }
}
