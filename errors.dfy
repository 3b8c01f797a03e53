/** The exceptions the modelled code raises or lets through, and the outcome of a call
    that either returns or raises. */
module Errors {
  import opened OrderedDict
  import opened Json

  datatype Exception =
    | SecurityViolation(message: string, categories: Dict<bool>, scores: Dict<Json>)
    | ValueError(message: string)
    /** A transport failure, an HTTP error status or an undecodable body. */
    | RequestException
    /** A reply that does not fit the record it is loaded into. */
    | ValidationError
    /** `.get` called on a value that is not a dict. */
    | AttributeError
    /** Iteration over, or unpacking of, a value of the wrong type. */
    | TypeError

  datatype Outcome<+T> = Returned(value: T) | Raised(exc: Exception)
}
