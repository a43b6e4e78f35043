/** Optional values, and the outcome of an operation that can throw. */
module Results {

  datatype Option<+T> = None | Some(value: T)

  /** The errors the storage layer can raise or report. */
  datatype Failure =
    | TypeError         // a property read on null/undefined, or a string method called on a non-string
    | StoreUnavailable  // the storage area rejected a get or a set
    | InvalidJsonFile   // the text handed to importPrompts is not JSON
    | InvalidFileFormat // the parsed import document has none of the accepted shapes

  /** A value, or the error that was thrown instead; usable with `:-`. */
  datatype Result<+T> = Ok(value: T) | Err(error: Failure) {
    predicate IsFailure() { Err? }

    function PropagateFailure<U>(): Result<U>
      requires Err?
    {
      Err(error)
    }

    function Extract(): T
      requires Ok?
    {
      value
    }
  }
}
