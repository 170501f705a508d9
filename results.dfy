/** Failure-compatible values shared by the model of the index wrapper. */
module Results {

  datatype Option<+T> = None | Some(value: T)

  /** The tantivy errors that the wrapper propagates with `?`. */
  datatype Error =
    | LockFailure        // a second index writer was requested while one is open
    | CommitFailure      // the storage layer refused a commit
    | QueryParserError   // the query text could not be parsed

  datatype Result<+T> = Ok(value: T) | Err(error: Error)
}
