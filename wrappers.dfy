/** Failure-compatible result types shared by the codec and the filters. */
module Wrappers {

  datatype Option<+T> = None | Some(value: T)

  /** The errors the scan record can raise. */
  datatype ScanError =
    | StreamError                              // the underlying stream ran out or held another kind of value
    | UnknownSerializationVersion(version: int) // readFromStream got a version it does not know
    | AssertionFailed                          // an ASSERT_ in the source failed (it throws)
    | OutOfBoundsWrite                         // the source writes past the end of a vector (undefined behaviour)
    | UnlinkedDependency                       // no points-map builder has been registered

  /** Success with a value, or one of the scan errors; usable with `:-`. */
  datatype Result<+T> = Ok(value: T) | Err(error: ScanError) {
    predicate IsFailure() { Err? }

    function PropagateFailure<U>(): Result<U>
      requires Err?
    {
      Err(error)
    }

    function Extract(): T
      requires Ok?
    {
      value
    }
  }
}
