/** Option for steps that may throw, and the two ways an inference call can fail, and the result type that
    carries either the generated text or one of them. */
module Results {

  /** The errors the engine raises. Every failure inside the JSON path,
      decoding or inference alike, is reported as InvalidJsonData; the CSV
      path raises CsvTooShort when there is no data row. */
  datatype InferError = InvalidJsonData | CsvTooShort

  /** The message text each error carries. */
  function Message(e: InferError): string {
    match e
    case InvalidJsonData => "Invalid JSON data"
    case CsvTooShort => "CSV must have at least a header and one data row"
  }

  /** The outcome of a JavaScript step that may throw: None is the throw. */
  datatype Option<+T> = None | Some(value: T) {

    predicate IsFailure() {
      None?
    }

    function PropagateFailure<U>(): Option<U>
      requires None?
    {
      None
    }

    function Extract(): T
      requires Some?
    {
      value
    }
  }

  datatype Result<+T> = Ok(value: T) | Err(error: InferError) {

    predicate IsFailure() {
      Err?
    }

    function PropagateFailure<U>(): Result<U>
      requires Err?
    {
      Err(error)
    }

    function Extract(): T
      requires Ok?
    {
      value
    }
  }
}
