/** The error kinds the core raises (each is a `ValueError` in the source, or an
    exception numpy raises on a shape mismatch), and the two result shapes the
    model uses in place of Python's exceptions. */
module Outcomes {

  datatype Error =
    | InvalidBandIndex    // band index outside [0, band count)
    | InvalidGainRange    // gain factor outside [0, 100]
    | InvalidBandCount    // gain list of the wrong length
    | UnknownFilterShape  // filter shape other than the accepted names
    | ShapeMismatch       // numpy cannot broadcast a slice assignment

  /** A value or the error that was raised instead. */
  datatype Result<T> = Ok(value: T) | Err(error: Error)

  /** An optional argument (`None` in Python). */
  datatype Option<T> = None | Some(value: T)

  /** A call that returns nothing, or the error that was raised instead. */
  datatype Outcome = Pass | Fail(error: Error)
}
