/** Option and Result values, and the failures the services raise. */
module Wrappers {

  datatype Option<+T> = None | Some(value: T)

  /** The exceptions of the modelled code, by kind. */
  datatype Error =
    | NotFound           // ResponseStatusException(NOT_FOUND, ...)
    | BadRequest         // ResponseStatusException(BAD_REQUEST, ...)
    | NullPointer        // unboxing or dereferencing a null value
    | UnknownConstant    // Enum.valueOf on a name that is not a constant
    | NonFiniteNumber    // BigDecimal.valueOf on an infinite or NaN double
    | RecursionOverflow  // a call cycle that runs out of stack (StackOverflowError)
    | IncorrectResultSize  // a single-result query that matched more than one document

  datatype Result<+T> = Success(value: T) | Failure(error: Error)
}
