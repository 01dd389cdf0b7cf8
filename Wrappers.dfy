/** Failures the interpreter can report, and the result type every stage returns. */
module Wrappers {

  /** The distinguishable failures of lexing, parsing and evaluation. */
  datatype Error =
    | LexError            // a string literal is not terminated
    | ParseError          // unbalanced parentheses, trailing tokens or empty input
    | NotCallable         // a non-callable operator applied to arguments
    | ArityMismatch       // a closure applied to the wrong number of arguments
    | DuplicateBinding    // the same name bound twice in one frame
    | NotAList            // `first` or `rest` of something that is not a list
    | EmptyList           // `first` or `rest` of the empty list
    | MalformedForm       // a special form with the wrong shape
    | TypeMismatch        // a host primitive given arguments it cannot take
    | StackOverflow       // the evaluation nests deeper than the depth bound

  datatype Result<T> = Ok(value: T) | Err(error: Error)

  /** A failure of evaluation, as opposed to one of reading the text. */
  predicate Runtime(e: Error)
  {
    e != LexError && e != ParseError
  }
}
