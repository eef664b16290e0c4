/** Small shared datatypes: optional values, results, and the faults that end a run. */
module Common {

  datatype Option<+T> = None | Some(value: T)

  datatype Result<+R, +E> = Success(value: R) | Failure(error: E)

  /** Why a reconstruction run stops with an error. Every fault is an exception
      that the driver's generic handler catches (engine/inference.py:217-223). */
  datatype Fault =
    | AssertionFailed     // a bounds assert on the destination box failed
    | UnsupportedRank     // spatial rank other than 2, 2.5 or 3
    | MalformedInfo       // a spatial-info row too short for the rank
    | ShapeMismatch       // the source slice cannot be assigned to the destination slice
    | IndexOutOfRange     // the 2.5D slice index is outside the volume
    | UnknownSubject      // the subject registry cannot resolve an id
    | GridSizeNotPositive // the sampling grid size assert
    | ProducerFailure     // an exception raised while pulling a batch
}
