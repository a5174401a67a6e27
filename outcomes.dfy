/** Results of the calculators.  The Python tools signal failure by raising an
    exception that nothing catches; the model returns `Err(kind)` instead. */
module Outcomes {

  /** The exceptions (or numpy non-finite results) the tools can run into. */
  datatype Error =
    | ZeroDivision        // Python float or int division by zero
    | IndexOutOfRange     // indexing an empty list or array (`pos[0]`, `h[-1]`, `T_stages[0]`)
    | UnboundName         // a local variable read before any assignment
    | MissingField        // an XML query that found nothing (IndexError / AttributeError)
    | ComplexResult       // `x ** 0.5` of a negative float yields a complex number
    | NonFinite           // numpy float division by zero (inf or nan instead of an exception)
    | ShapeMismatch       // numpy operands that cannot be broadcast together
    | EmptyMaximum        // `numpy.max` of an empty array
    | SearchBoundExceeded // the payload search used up its trial budget

  datatype Result<T> = Ok(value: T) | Err(error: Error)

  datatype Option<T> = None | Some(value: T)

  /** The value of an optional field, or a default when it is absent. */
  function GetOr<T>(o: Option<T>, default: T): (r: T)
    ensures o.Some? ==> r == o.value
    ensures o.None? ==> r == default
  {
    match o
    case Some(x) => x
    case None => default
  }
}
