/** Failure-compatible result types shared by every module of the model.
    The error kinds follow the library's error taxonomy; message text and the
    offending node path are not carried. */
module Outcomes {

  /** Why an operation failed. */
  datatype Fault =
    | OpenFailure        // a group, dataset or handle that must exist is absent
    | AlreadyExists      // the container engine refuses to create a name twice
    | AttributeMissing   // an attribute read names an attribute that is absent
    | TypeMismatch       // the stored type class disagrees with the request
    | SizeMismatch       // a buffer is too small, or a layer's extent disagrees
    | BadValue           // stored text does not decode (boolean, date/time, code)
    | ProductMismatch    // an entity was opened over a different product tag
    | DimensionMismatch  // a layer's extent disagrees with its declared size
    | ReadFailure        // the container engine cannot convert on read
    | WriteFailure       // the container engine cannot convert on write
    | NonFinite          // a calibrated write through gain 0 (an IEEE infinity)

  /** Some/None, usable with `:-`. */
  datatype Option<+T> = None | Some(value: T) {
    predicate IsFailure() { None? }
    function PropagateFailure<U>(): Option<U> requires None? { None }
    function Extract(): T requires Some? { value }
  }

  /** Success/Failure, usable with `:-`. */
  datatype Result<+T> = Success(value: T) | Failure(error: Fault) {
    predicate IsFailure() { Failure? }
    function PropagateFailure<U>(): Result<U> requires Failure? { Failure(error) }
    function Extract(): T requires Success? { value }
  }
}
