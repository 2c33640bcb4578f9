/** Failure-carrying datatypes shared by the model. The Python source signals
    failures by raising exceptions; here each such exception is a value. */
module Outcomes {

  datatype Option<+T> = None | Some(value: T)

  /** The exceptions the modelled code can raise. */
  datatype Error =
    | IndexError     // an array shorter than the code indexes into
    | ZeroDivision   // a Python float division by zero
    | InvalidScheme  // the ValueError raised for an unknown aggregation scheme code
    | EmptySample    // the ValueError numpy raises for the minimum of an empty array

  datatype Result<+T> = Success(value: T) | Failure(error: Error)
}
