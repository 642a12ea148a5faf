/** Option and Result, and the Python exceptions the extractors can raise. */
module Wrappers {

  /** A value that may be Python's `None`. */
  datatype Option<+T> = None | Some(value: T) {
    function GetOr(default: T): T {
      if Some? then value else default
    }
  }

  /** The exception kinds that escape from the modelled code. */
  datatype Failure =
    | KeyError(key: string)         // a missing attribute or dictionary key
    | AttributeError(what: string)  // `.attrib` read on the `None` that a failed `find` returned
    | IndexError                    // `[0]` of an empty list or of an element without children
    | ValueError(what: string)      // wrong number of items to unpack, unparsable text, empty response
    | TypeError(what: string)       // a record built with an undeclared or a missing keyword; float(None)

  /** The outcome of a call that returns normally or raises. */
  datatype Result<+T> = Ok(value: T) | Err(error: Failure) {
    predicate IsFailure() {
      Err?
    }

    function PropagateFailure<U>(): Result<U>
      requires Err?
    {
      Err(error)
    }

    function Extract(): T
      requires Ok?
    {
      value
    }
  }
}
