/** Optional values and results with errors, for Go's nil pointers and error returns. */
module Outcomes {

  datatype Option<+T> = None | Some(value: T)

  datatype Error =
    | Unavailable         // the connection failed or the context is done
    | OutOfRange          // the node's "Block height out of range"
    | NotFound            // the node does not know the hash or txid
    | NoRows              // pgx.ErrNoRows
    | UniqueViolation
    | ForeignKeyViolation
    | CheckViolation
    | IntegerRange        // "integer out of range"
    | UnknownAction       // "unknown covenant action"

  datatype Result<+T> = Ok(value: T) | Err(error: Error)

  function Elements<T>(s: seq<T>): set<T>
  {
    set x | x in s
  }
}
