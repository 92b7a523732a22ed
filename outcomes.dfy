/** Error, Option and Result values for the usage model.

    The errors are the exceptions the modelled serializer code can end in:
    a date field out of range, an instance attribute that was never
    assigned, and the not-found signal of the organization lookup.
 */
module Outcomes {

  datatype Error =
    | ValueError      // a `date(...)` or `date.replace(...)` with a field out of range
    | AttributeError  // reading an instance attribute that nothing assigned
    | NotFound        // `Http404`: the requested organization does not resolve

  datatype Option<+T> = None | Some(value: T)

  datatype Result<+T> = Ok(value: T) | Err(error: Error)

  /** The result of a step that changes state and returns nothing else. */
  datatype Outcome = Pass | Fail(error: Error)
}
