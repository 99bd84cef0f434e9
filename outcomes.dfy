/** Optional values and the outcome of a Python call that may raise. */
module Outcomes {

  datatype Option<+T> = None | Some(value: T) {
    predicate IsFailure() { None? }
    function PropagateFailure<U>(): Option<U> requires None? { None }
    function Extract(): T requires Some? { value }
  }

  /** The exceptions the backend code raises or lets escape, by kind.
      HTTPException carries the status code it was raised with. */
  datatype PyError =
    | HTTPException(status: int)
    | ValidationError   // pydantic refused the fields
    | AttributeError    // a method called on a value of the wrong type
    | KeyError          // a missing dict key read with []
    | TypeError         // an operation applied to an unsuitable type
    | JSONDecodeError   // json.loads refused its text
    | RequestError      // the HTTP client could not complete a request

  /** What a Python call does: it returns a value or raises. */
  datatype Try<+T> = Returned(value: T) | Raised(error: PyError)
}
