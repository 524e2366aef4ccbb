# Schema inference of the vague playground, in Dafny

This project models the schema-inference endpoint of the vague playground
(`app/api/infer/route.ts`). It takes a sample of data, either JSON text or CSV
text, and writes a schema definition for the vague data-generation language.
The output has one `schema` block per collection and a single
`dataset InferredData` block that gives each collection's size.

The model follows the route's functions one by one:

- `inferType` becomes `TypeInference.InferType`. It covers dates by regular
  expression, integral versus fractional numbers, booleans and the string
  fallback.
- `singular` and `capitalize` become `Naming.Singular` and
  `Naming.Capitalize`.
- `Object.entries` over a decoded JSON value becomes `JsonValues.Entries`.
  This includes the throw on `null`, and index keys for arrays and strings.
- `generateSchemaFromObject` becomes `SchemaBuilder.BuildSchema`, a structured
  schema. `SchemaBuilder.RenderSchema` turns it into text.
- `inferFromJSON` becomes `DocumentInference.InferDocument`, which builds the
  schemas and dataset lines. `DocumentInference.InferFromJson` assembles the
  text.
- `inferFromCSV` becomes `CsvAdapter.InferFromCsv`.
- `inferSchema` becomes `Inference.InferSchema`. It dispatches on the format
  and turns every failure on the JSON path into "Invalid JSON data".

Three JavaScript string operations are written out in `Text`: `trim` over the
ECMAScript white-space and line-terminator set, `split` on one character, and
`join`. `Lines` and `DocumentLayout` read the produced text back line by line.
The partner of every renderer is therefore a statement about the lines a
reader sees. `JsonLayout` and `CsvAdapter.CsvLayout` apply that statement to
the two entry points. `Scenarios` checks complete outputs for concrete inputs.

Three behaviours of the code are worth stating plainly:

- `singular("people")` is `"people"`, because the word does not end in `s`,
  so the schema is `People` (`Naming.PeopleIsKept`).
- CSV cells are never converted to numbers, so `"a,b\n1,2\n3,4"` gives two
  `string` fields (`Scenarios.CsvTableOutput`).
- Any format other than `"json"` takes the CSV path.

## Model

| member | source | states |
|---|---|---|
| TypeInference.InferType | app/api/infer/route.ts:91-105 | a string is `date` exactly when it starts with four digits, a dash, two digits, a dash and two digits, otherwise `string`; a number is `int in 0..1000` exactly when integral and `decimal in 0..1000` exactly when not; exactly the booleans give the two-literal union; null, arrays and objects give `string` |
| TypeInference.DatePatternMeaning | app/api/infer/route.ts:93 | the anchored pattern `^\d{4}-\d{2}-\d{2}` matches exactly the strings with a date prefix, and nothing after position 10 matters |
| TypeInference.BoundsIgnoreValue | app/api/infer/route.ts:98-100 | two numbers that agree on integrality get the same annotation, and its bounds are always 0 and 1000, whatever the values |
| TypeInference.RenderedDefaults | app/api/infer/route.ts:99-102 | the annotations print as `int in 0..1000`, `decimal in 0..1000` and `"true" \| "false"` |
| TypeInference.ParseRender | app/api/infer/route.ts:91-105 | every annotation reads back from its printed text to the same annotation |
| TypeInference.RenderInjective | app/api/infer/route.ts:91-105 | two annotations that print alike are equal, so each printed type names one annotation |
| Naming.Singular | app/api/infer/route.ts:111-115 | an `ies` ending becomes `y`; otherwise one trailing `s` is dropped; the key is returned unchanged exactly when it does not end in `s` |
| Naming.SingularOfPlural | app/api/infer/route.ts:111-115 | adding `s` (to a word not ending in `ie`) and then singularizing gives the word back; `w + "ies"` gives `w + "y"` |
| Naming.PeopleIsKept | app/api/infer/route.ts:111-115 | `people` is kept as it is and names the schema `People` |
| Naming.Capitalize | app/api/infer/route.ts:107-109 | the length is kept, the first character is upper-cased and the rest is untouched; the empty string stays empty |
| Naming.CapitalizeIdempotent | app/api/infer/route.ts:107-109 | capitalizing twice is capitalizing once |
| Naming.SchemaNameStartsUpper | app/api/infer/route.ts:49 | a non-empty schema name derived from a key never starts with a lower-case ASCII letter |
| Naming.NamesCollide | app/api/infer/route.ts:49 | `user` and `users` both name the schema `User`, and `category` and `categories` both name `Category` |
| JsonValues.Entries | app/api/infer/route.ts:81 | Object.entries throws exactly on null; booleans and numbers have no entries; an array or string has one entry per element or character, keyed by its index written in decimal; an object has its own members in order |
| JsonValues.IndexKeysDistinct | app/api/infer/route.ts:81 | the index keys of an array's or string's entries never repeat |
| SchemaBuilder.BuildSchema | app/api/infer/route.ts:80-86 | the schema fails exactly on a null sample; it carries the given name and one field per entry; for an object sample the fields are its members in order, each typed by inferType of its value |
| SchemaBuilder.GenerateSchemaFromObject | app/api/infer/route.ts:80-89 | the block text exists exactly when the sample is not null; its content is BuildSchema's schema, as SchemaLayout reads it back |
| SchemaBuilder.ScalarSampleIsEmpty | app/api/infer/route.ts:80-89 | a boolean or number sample gives a block with an empty body line |
| SchemaBuilder.SchemaLayout | app/api/infer/route.ts:80-89 | when no name holds a line feed, the block reads back as the header line, one `  name: type` line per field in order with a comma on all but the last, and the closing brace; a block with fields therefore has fields + 2 lines |
| DocumentInference.Collections | app/api/infer/route.ts:47-48 | the collections are members whose value is a non-empty array, and every such member is among them |
| DocumentInference.CollectionsAppend | app/api/infer/route.ts:47-48 | the filter keeps member order: the collections of a concatenation are those of the first part followed by those of the second |
| DocumentInference.Collect | app/api/infer/route.ts:45-55 | the loop over an object's entries fails exactly when some collection's first element is null; otherwise it pushes, for the i-th collection, the schema of its first element named by the singular capitalized key and the dataset line `key: length of Name` |
| DocumentInference.InferDocument | app/api/infer/route.ts:33-56 | the root fails exactly when it is null, an array starting with null, or an object with a collection starting with null; an empty array gives no schemas; a non-empty array gives one `Item` schema from its first element and the line `items: length of Item`; other non-objects give no schemas; schemas and dataset lines pair up by position |
| DocumentInference.InferFromJson | app/api/infer/route.ts:33-58 | inferFromJSON returns text exactly when the document can be built |
| DocumentLayout.DocumentLayout | app/api/infer/route.ts:57 | when no name holds a line feed, the assembled text reads back as the schema blocks separated by one blank line, a blank line, the dataset header, one declaration per line with a comma on all but the last, and the closing brace |
| DocumentLayout.OneDatasetBlock | app/api/infer/route.ts:57 | when no name holds a line feed, the assembled text holds the line `dataset InferredData {` exactly once, even with no schema; a key containing a line feed is written verbatim and could forge a second header, so the condition is needed |
| DocumentLayout.EmptyRootOutput | app/api/infer/route.ts:37-57 | a root with nothing to describe (an empty array, an object without collections, a scalar) gives an empty schema section followed by an empty dataset block |
| DocumentLayout.NullRootThrows | app/api/infer/route.ts:45-47 | a null root throws in Object.entries |
| DocumentLayout.ArrayRootOutput | app/api/infer/route.ts:37-44 | a non-empty array root gives the `Item` block of its first element and the line `items: length of Item` |
| DocumentLayout.ObjectRootOutput | app/api/infer/route.ts:45-57 | an object root whose collections all have non-null first elements gives their blocks in member order, each followed by its dataset line |
| JsonLayout.SchemaNameNewlineFree | app/api/infer/route.ts:49 | singularizing and capitalizing a newline-free key gives a newline-free name |
| JsonLayout.InferredDocumentNewlineFree | app/api/infer/route.ts:33-56 | when the collection keys and the keys of each sample are newline-free, every name in inferFromJSON's document is newline-free |
| JsonLayout.JsonLayout | app/api/infer/route.ts:57 | under the same condition, the text inferFromJSON returns reads back exactly as the lines of its document, with one dataset block |
| CsvAdapter.CsvLines | app/api/infer/route.ts:61 | the trimmed text splits into one line more than it has line feeds, no line holds a line feed, there are at least two lines exactly when the trimmed text holds a line feed, and the lines joined with line feeds are the trimmed text again |
| CsvAdapter.Cells | app/api/infer/route.ts:66-67 | a line gives one cell more than it has commas, and the i-th cell is the i-th comma-separated piece with its surrounding whitespace trimmed, so no cell starts or ends with white space |
| CsvAdapter.CellType | app/api/infer/route.ts:71-72 | a column is `date` exactly when the sample row has a cell at that index that starts with a date, and `string` otherwise, including a missing cell |
| CsvAdapter.CsvFields | app/api/infer/route.ts:69-74 | one field per header cell, in order, named by that cell and typed from the sample cell at the same index |
| CsvAdapter.LinesText | app/api/infer/route.ts:62-77 | fewer than two lines give the CSV-too-short error and nothing else does; otherwise the template text is the rendering of the Item document of the lines |
| CsvAdapter.LinesDocument | app/api/infer/route.ts:66-77 | the document of the lines has the single `Item` schema of the typed header cells and the line `items: lines - 1 of Item` |
| CsvAdapter.InferFromCsv | app/api/infer/route.ts:60-78 | inferFromCSV fails, with the CSV-too-short error, exactly when the trimmed text has no line feed; otherwise it returns the rendering of the CSV document |
| CsvAdapter.CsvDocument | app/api/infer/route.ts:60-77 | the document is one `Item` schema with the single line `items: n of Item`, where n counts the line feeds of the trimmed text, that is every line after the header |
| CsvAdapter.CsvFieldsShape | app/api/infer/route.ts:66-74 | in terms of the input: the fields are the trimmed header cells in order, each `date` exactly when the same-index cell of the second line starts with a date and `string` otherwise |
| CsvAdapter.TemplateIsAssembly | app/api/infer/route.ts:77 | the hand-written CSV template is the text inferFromJSON's assembly gives for one `Item` schema and one `items` line |
| CsvAdapter.CsvDocumentNewlineFree | app/api/infer/route.ts:66 | header cells come from a single line, so every name in the CSV document is newline-free |
| CsvAdapter.CsvLayout | app/api/infer/route.ts:77 | every successful CSV output reads back as the lines of its document, with one dataset block |
| Inference.InferSchema | app/api/infer/route.ts:20-31 | any format other than `json` is inferFromCSV's result; on `json` the call fails exactly when parsing fails or inferFromJSON throws, always with the one invalid-JSON error, and otherwise returns inferFromJSON's text |
| Inference.NullDocumentIsInvalid | app/api/infer/route.ts:22-27 | the JSON text `null` is reported as invalid JSON data |
| Inference.JsonFailureMessage | app/api/infer/route.ts:26 | every JSON-path failure carries the message `Invalid JSON data` |
| Inference.SingleLineCsvIsRejected | app/api/infer/route.ts:62-64 | CSV text whose trimmed form is one line fails with `CSV must have at least a header and one data row` |
| Scenarios.PeopleOutput | app/api/infer/route.ts:45-57 | `{"people": [{name: "Alice", age: 30}, {name: "Bob", age: 25}]}` gives the `People` block with `name: string` and `age: int in 0..1000` and the line `people: 2 of People` |
| Scenarios.StringSampleOutput | app/api/infer/route.ts:37-44 | the array `["hi"]` gives an `Item` block with the fields `0` and `1`, both `string` |
| Scenarios.CsvTableOutput | app/api/infer/route.ts:60-77 | `a,b` / `1,2` / `3,4` as CSV gives the `Item` block with `a: string` and `b: string` and the line `items: 2 of Item` |
| Scenarios.CsvHeaderOnly | app/api/infer/route.ts:62-64 | the single line `a,b` as CSV is rejected as too short |
| Text.SplitJoin | app/api/infer/route.ts:61 | splitting a join of separator-free pieces gives the pieces back |
| Text.TrimPadded | app/api/infer/route.ts:61 | trimming removes exactly the white space around a trimmed middle |
| Text.TrimIdempotent | app/api/infer/route.ts:61 | trimming twice is trimming once |

## Left out

- The POST handler (route.ts:3-18) is not modelled: reading the request body, the 400 answer for a falsy `data`, the JSON response, and the 500 answer "Failed to infer schema from data". That answer rewraps every throw, including "Invalid JSON data" and the CSV error (route.ts:14-16). These are HTTP transport, not inference.
- `JSON.parse` is a parameter of `Inference.InferSchema` (`None` stands for a syntax error). The JSON grammar is not modelled.
- Naming.Capitalize: upper-cases ASCII letters only. JavaScript's `toUpperCase` maps all of Unicode: `"élan"` becomes `"Élan"` in the source and stays `"élan"` here. It can also change the length (`"ß"` becomes `"SS"`), so the length-keeping ensures is a property of the model only.
- JsonValues.Entries: splits a string sample per Dafny character (code point). JavaScript indexes strings by UTF-16 code unit, so `"😀"` has two entries (`0` and `1`) in the source and one here.
- JsonValues.Entries: keeps an object's members as the decoder gives them. `Object.entries` first lists the keys that are array indices, in ascending numeric order, and only then the other keys in insertion order, so `{"b": .., "1": ..}` yields `1` before `b` in the source. A JavaScript object also never holds a key twice: for a repeated key the source keeps the first position and the last value, while a `JObj` may hold both members.
- JsonValues.Json: a number is a `real` and cannot be ±Infinity. `JSON.parse("1e400")` gives `Infinity`, which is not an integer, so the source prints `decimal in 0..1000`. The model has no such value; that result is what `InferType` gives any non-integral number.
- Text.IsTrimmable: lists the ECMAScript white-space and line-terminator code points explicitly. Category Zs is taken as it stands in current Unicode versions, so a future Unicode space character would not be trimmed.
- The user interface, the other API routes (execute, validate), the example library and the vague compiler are outside this component.

