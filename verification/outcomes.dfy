/** Error values and the failure-carrying results of the classifier. */
module Outcomes {

  /** The two failures the classifier reports. */
  datatype Error =
    | DimensionMismatch     // two points with different numbers of coordinates
    | TrainingSetTooSmall   // fewer training samples than neighbours to consult

  /** A Go `error` result: `None` stands for `nil`. */
  datatype Option<+T> = None | Some(value: T)

  /** A Go `(value, error)` pair where the value is meaningless on error. */
  datatype Result<+T> = Ok(value: T) | Err(error: Error)
}
