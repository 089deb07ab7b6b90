/** Results of the operations of the exporter that can throw. */
module Outcomes {

  /** The .NET exceptions the modelled code raises. */
  datatype Exception =
    | NotImplementedException      // an unrecognised axis suffix or element count
    | InvalidOperationException    // First() on an empty sequence
    | ArgumentException            // Buffer.BlockCopy reading past its source
    | ArgumentOutOfRangeException  // indexing a list out of range
    | NullReferenceException       // a member access on a missing component or mesh

  /** A value, or the exception that aborted the computation. */
  datatype Result<T> = Ok(value: T) | Throw(exception: Exception)

  /** Completion of an operation that returns nothing. */
  datatype Outcome = Pass | Fail(exception: Exception)

  datatype Option<T> = None | Some(value: T)
}
