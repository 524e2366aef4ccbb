/** The CSV adapter: a header line and one sample line of comma-separated
    text to a single Item schema (app/api/infer/route.ts, inferFromCSV). */
module CsvAdapter {
  import opened Text
  import opened Results
  import opened JsonValues
  import opened TypeInference
  import opened SchemaBuilder
  import opened DocumentInference
  import opened Lines
  import opened DocumentLayout

  /** Each piece with its surrounding whitespace trimmed. */
  function TrimEach(xs: seq<string>): (ys: seq<string>)
    ensures |ys| == |xs|
    ensures forall i :: 0 <= i < |xs| ==> ys[i] == Trim(xs[i])
    decreases |xs|
  {
    if |xs| == 0 then [] else [Trim(xs[0])] + TrimEach(xs[1..])
  }

  /** The lines of the input: the trimmed text split on line feeds. There
      are at least two exactly when the trimmed text holds a line feed, no
      line holds one, and joined with line feeds they give the trimmed text
      back. */
  function CsvLines(data: string): (lines: seq<string>)
    ensures |lines| == Count(Trim(data), '\n') + 1
    ensures |lines| >= 2 <==> '\n' in Trim(data)
    ensures forall i :: 0 <= i < |lines| ==> '\n' !in lines[i]
    ensures Join("\n", lines) == Trim(data)
  {
    CountZero(Trim(data), '\n');
    Split(Trim(data), '\n')
  }

  /** The comma-separated cells of one line, each trimmed: the i-th cell is
      the i-th piece between commas without its surrounding whitespace. */
  function Cells(line: string): (cells: seq<string>)
    ensures |cells| == Count(line, ',') + 1
    ensures forall i :: 0 <= i < |cells| ==>
      cells[i] == Trim(Split(line, ',')[i]) && IsTrimmed(cells[i])
  {
    TrimEach(Split(line, ','))
  }

  /** The type inferred from the sample row's cell at the same index. A
      cell that exists is a string and is never coerced to a number or a
      boolean; past the end of the row the value is undefined, which falls
      back to string. */
  function CellType(row: seq<string>, i: nat): (t: TypeAnn)
    ensures t == DateType || t == StringType
    ensures t == DateType <==> i < |row| && HasDatePrefix(row[i])
  {
    if i < |row| then InferType(JStr(row[i])) else StringType
  }

  /** One field per header cell, typed from the cell at the same index of
      the sample row; extra sample cells are ignored. */
  function CsvFields(headers: seq<string>, row: seq<string>): (fs: seq<Field>)
    ensures |fs| == |headers|
    ensures forall i :: 0 <= i < |fs| ==>
      && fs[i].name == headers[i]
      && (fs[i].ty == DateType <==> i < |row| && HasDatePrefix(row[i]))
      && (fs[i].ty == DateType || fs[i].ty == StringType)
  {
    seq(|headers|, i requires 0 <= i < |headers| => Field(headers[i], CellType(row, i)))
  }

  /** One Item schema with the given fields and one dataset line of the
      given count. */
  function ItemDocument(fields: seq<Field>, count: nat): (doc: Document)
    ensures WellFormed(doc) && |doc.schemas| == 1
    ensures doc.schemas[0] == Schema(ItemSchema, fields)
    ensures doc.datasets[0] == DatasetLine(ItemsCollection, count, ItemSchema)
  {
    Document([Schema(ItemSchema, fields)], [DatasetLine(ItemsCollection, count, ItemSchema)])
  }

  /** The document the lines describe: the Item schema typed from the
      header line and the sample line, and one dataset line counting the
      lines after the header. */
  function LinesDocument(lines: seq<string>): (doc: Document)
    requires |lines| >= 2
    ensures WellFormed(doc) && |doc.schemas| == 1
    ensures doc.schemas[0] == Schema(ItemSchema, CsvFields(Cells(lines[0]), Cells(lines[1])))
    ensures doc.datasets[0] == DatasetLine(ItemsCollection, |lines| - 1, ItemSchema)
  {
    ItemDocument(CsvFields(Cells(lines[0]), Cells(lines[1])), |lines| - 1)
  }

  /** The template inferFromCSV returns, around the joined field lines and
      the count. */
  function CsvTemplate(fields: string, count: nat): string {
    "schema Item {\n" + fields + "\n}\n\ndataset InferredData {\n  items: " + NatToString(count) + " of Item\n}"
  }

  /** inferFromCSV after the split into lines: an error with fewer than two
      lines, otherwise the template filled from the first two lines, which
      is the text the JSON assembly writes for the lines' document. */
  function LinesText(lines: seq<string>): (r: Result<string>)
    ensures r.Err? <==> |lines| < 2
    ensures r.Err? ==> r.error == CsvTooShort
    ensures r.Ok? ==> r.value == RenderDocument(LinesDocument(lines))
  {
    if |lines| < 2 then Err(CsvTooShort)
    else
      var headers := Cells(lines[0]);
      var row := Cells(lines[1]);
      var fs := CsvFields(headers, row);
      TemplateIsAssembly(fs, |lines| - 1);
      Ok(CsvTemplate(Join(",\n", FieldLines(fs)), |lines| - 1))
  }

  /** inferFromCSV: an error unless the trimmed text has a line break;
      otherwise the text of the CSV document. */
  function InferFromCsv(data: string): (r: Result<string>)
    ensures r.Err? <==> '\n' !in Trim(data)
    ensures r.Err? ==> r.error == CsvTooShort
    ensures r.Ok? ==> '\n' in Trim(data) && r.value == RenderDocument(CsvDocument(data))
  {
    LinesText(CsvLines(data))
  }

  /** The document the CSV text describes: one Item schema, whose fields
      CsvFieldsShape gives, and one `items` line whose count is the number
      of line breaks in the trimmed text, blank interior lines included. */
  function CsvDocument(data: string): (doc: Document)
    requires '\n' in Trim(data)
    ensures WellFormed(doc) && |doc.schemas| == 1 && doc.schemas[0].name == ItemSchema
    ensures doc.datasets[0].collection == ItemsCollection && doc.datasets[0].schemaName == ItemSchema
    ensures doc.datasets[0].count == Count(Trim(data), '\n')
  {
    LinesDocument(CsvLines(data))
  }

  /** The fields of the CSV path: one per header cell, in order, named by
      the cell, typed date exactly when the same-index sample cell exists
      and starts with a date, and string otherwise. */
  lemma CsvFieldsShape(data: string)
    requires '\n' in Trim(data)
    ensures var lines := CsvLines(data);
      var fs := CsvDocument(data).schemas[0].fields;
      var header, sample := Cells(lines[0]), Cells(lines[1]);
      && |fs| == |header|
      && forall i :: 0 <= i < |fs| ==>
           && fs[i].name == header[i]
           && (fs[i].ty == DateType <==> i < |sample| && HasDatePrefix(sample[i]))
           && (fs[i].ty == DateType || fs[i].ty == StringType)
  {
    var lines := CsvLines(data);
    var header, sample := Cells(lines[0]), Cells(lines[1]);
    var fs := CsvFields(header, sample);
    assert CsvDocument(data).schemas[0].fields == fs;
    forall i | 0 <= i < |fs|
      ensures fs[i].name == header[i]
      ensures fs[i].ty == DateType <==> i < |sample| && HasDatePrefix(sample[i])
      ensures fs[i].ty == DateType || fs[i].ty == StringType
    {
    }
  }

  lemma ItemSchemaText(fs: seq<Field>)
    ensures RenderSchema(Schema(ItemSchema, fs)) == "schema Item {\n" + Join(",\n", FieldLines(fs)) + "\n}"
  {
    assert "schema " + ItemSchema + " {\n" == "schema Item {\n";
  }

  /** The template is the JSON assembly of one Item schema and its line. */
  lemma TemplateIsAssembly(fs: seq<Field>, n: nat)
    ensures CsvTemplate(Join(",\n", FieldLines(fs)), n) == RenderDocument(ItemDocument(fs, n))
  {
    var f := Join(",\n", FieldLines(fs));
    var k := NatToString(n);
    calc {
      RenderDocument(ItemDocument(fs, n));
      { SingleCollectionText(Schema(ItemSchema, fs), DatasetLine(ItemsCollection, n, ItemSchema));
        ItemSchemaText(fs);
        ItemsLineText(n); }
      ("schema Item {\n" + f + "\n}") + "\n\ndataset InferredData {\n" + ("  items: " + k + " of Item") + "\n}";
      { TemplateGlue(f, k); }
      CsvTemplate(f, n);
    }
  }

  lemma TemplateGlue(f: string, k: string)
    ensures ("schema Item {\n" + f + "\n}") + "\n\ndataset InferredData {\n" + ("  items: " + k + " of Item") + "\n}"
         == "schema Item {\n" + f + "\n}\n\ndataset InferredData {\n  items: " + k + " of Item\n}"
  {
  }

  // ---------------------------------------------------------------------
  // Line structure of the output
  // ---------------------------------------------------------------------

  lemma CellsNewlineFree(line: string)
    requires NewlineFree(line)
    ensures AllNewlineFree(Cells(line))
  {
    var ps := Split(line, ',');
    JoinPartsNewlineFree([','], ps);
    forall i | 0 <= i < |ps|
      ensures NewlineFree(Cells(line)[i])
    {
      TrimNewlineFree(ps[i]);
    }
  }

  lemma ItemNamesNewlineFree()
    ensures NewlineFree(ItemSchema) && NewlineFree(ItemsCollection)
  {
  }

  /** The header cells of newline-free lines hold no line feed. */
  lemma HeaderCellsNewlineFree(lines: seq<string>)
    requires |lines| >= 2 && NewlineFree(lines[0])
    ensures AllNewlineFree(Cells(lines[0]))
  {
    CellsNewlineFree(lines[0]);
  }

  /** Every name in the document of newline-free lines is newline-free. */
  lemma LinesDocumentNewlineFree(lines: seq<string>)
    requires |lines| >= 2 && NewlineFree(lines[0])
    ensures DocumentNewlineFree(LinesDocument(lines))
  {
    LinesSchemaNewlineFree(lines);
    ItemNamesNewlineFree();
    SingleDocumentNewlineFree(LinesDocument(lines));
  }

  lemma LinesSchemaNewlineFree(lines: seq<string>)
    requires |lines| >= 2 && NewlineFree(lines[0])
    ensures NamesNewlineFree(LinesDocument(lines).schemas[0])
  {
    HeaderCellsNewlineFree(lines);
    FieldNamesNewlineFree(Cells(lines[0]), Cells(lines[1]));
    ItemNamesNewlineFree();
  }

  lemma FieldNamesNewlineFree(header: seq<string>, sample: seq<string>)
    requires AllNewlineFree(header)
    ensures NamesNewlineFree(Schema(ItemSchema, CsvFields(header, sample)))
  {
    ItemNamesNewlineFree();
    var fs := CsvFields(header, sample);
    assert forall i :: 0 <= i < |fs| ==> fs[i].name == header[i];
  }

  lemma SingleDocumentNewlineFree(doc: Document)
    requires |doc.schemas| == 1 && |doc.datasets| == 1
    requires NamesNewlineFree(doc.schemas[0])
    requires NewlineFree(doc.datasets[0].collection) && NewlineFree(doc.datasets[0].schemaName)
    ensures DocumentNewlineFree(doc)
  {
  }

  /** Header cells come from one line, so no field name holds a line feed. */
  lemma CsvDocumentNewlineFree(data: string)
    requires '\n' in Trim(data)
    ensures DocumentNewlineFree(CsvDocument(data))
  {
    LinesDocumentNewlineFree(CsvLines(data));
  }

  /** Read back line by line, the CSV output is the Item block, a blank
      line and the dataset block, which occurs exactly once. */
  lemma CsvLayout(data: string)
    requires '\n' in Trim(data)
    ensures Split(InferFromCsv(data).value, '\n') == DocumentLines(CsvDocument(data))
    ensures Occurrences(Split(InferFromCsv(data).value, '\n'), DatasetHeader) == 1
  {
    CsvDocumentNewlineFree(data);
    DocumentLayout.DocumentLayout(CsvDocument(data));
    OneDatasetBlock(CsvDocument(data));
  }
}
