/** The entry point: dispatch on the declared format and the single error
    the JSON path reports (app/api/infer/route.ts, inferSchema). */
module Inference {
  import opened Text
  import opened Results
  import opened JsonValues
  import opened DocumentInference
  import opened CsvAdapter

  /** inferSchema. `parse` stands for JSON.parse, None being a syntax
      error. Only the format "json" takes the JSON path; any other format
      is read as CSV. On the JSON path a decoding failure and a throw
      during inference are both caught and reported as the one
      InvalidJsonData error; the CSV path's own error passes through. */
  function InferSchema(data: string, format: string, parse: string -> Option<Json>): (r: Result<string>)
    ensures format != "json" ==> r == InferFromCsv(data)
    ensures format == "json" ==>
      (r.Err? <==> parse(data).None? || InferFromJson(parse(data).value).None?)
    ensures format == "json" && r.Err? ==> r.error == InvalidJsonData
    ensures format == "json" && r.Ok? ==> Some(r.value) == InferFromJson(parse(data).value)
  {
    if format == "json" then
      match parse(data)
      case None => Err(InvalidJsonData)
      case Some(value) =>
        match InferFromJson(value)
        case None => Err(InvalidJsonData)
        case Some(text) => Ok(text)
    else
      InferFromCsv(data)
  }

  /** A JSON document that decodes to null is reported as invalid JSON:
      Object.entries throws on it and the throw is caught. */
  lemma NullDocumentIsInvalid(data: string, parse: string -> Option<Json>)
    requires parse(data) == Some(JNull)
    ensures InferSchema(data, "json", parse) == Err(InvalidJsonData)
  {
  }

  /** Every failure of the JSON path carries the same message. */
  lemma JsonFailureMessage(data: string, parse: string -> Option<Json>)
    requires InferSchema(data, "json", parse).Err?
    ensures Message(InferSchema(data, "json", parse).error) == "Invalid JSON data"
  {
  }

  /** CSV text without a line break after trimming has no data row. */
  lemma SingleLineCsvIsRejected(data: string, format: string, parse: string -> Option<Json>)
    requires format != "json" && '\n' !in Trim(data)
    ensures InferSchema(data, format, parse) == Err(CsvTooShort)
    ensures Message(CsvTooShort) == "CSV must have at least a header and one data row"
  {
  }
}
