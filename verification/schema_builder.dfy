/** The object schema builder: one schema block from one sample object
    (app/api/infer/route.ts, generateSchemaFromObject). */
module SchemaBuilder {
  import opened Text
  import opened Results
  import opened JsonValues
  import opened TypeInference
  import opened Lines

  /** A field declaration: the field's name and its inferred annotation. */
  datatype Field = Field(name: string, ty: TypeAnn)

  /** A schema block: its name and its fields in declaration order. */
  datatype Schema = Schema(name: string, fields: seq<Field>)

  /** One field per entry, in the entries' own order: no sorting, no
      merging of repeated names. */
  function FieldsOf(entries: seq<(string, Json)>): (fs: seq<Field>)
    ensures |fs| == |entries|
    ensures forall i :: 0 <= i < |entries| ==> fs[i] == Field(entries[i].0, InferType(entries[i].1))
    decreases |entries|
  {
    if |entries| == 0 then []
    else [Field(entries[0].0, InferType(entries[0].1))] + FieldsOf(entries[1..])
  }

  /** The schema generateSchemaFromObject describes. Object.entries throws
      on a null sample, which the caller sees as a failure. */
  function BuildSchema(sample: Json, name: string): (r: Option<Schema>)
    ensures r.None? <==> sample.JNull?
    ensures r.Some? ==> r.value.name == name
    ensures r.Some? ==> |r.value.fields| == |Entries(sample).value|
    ensures sample.JObj? ==>
      (&& r.Some? && |r.value.fields| == |sample.members|
       && forall i :: 0 <= i < |sample.members| ==>
            r.value.fields[i].name == sample.members[i].0
            && r.value.fields[i].ty == InferType(sample.members[i].1))
  {
    var entries :- Entries(sample);
    Some(Schema(name, FieldsOf(entries)))
  }

  /** `  name: annotation` */
  function FieldLine(f: Field): string {
    "  " + f.name + ": " + Render(f.ty)
  }

  function FieldLines(fs: seq<Field>): (ls: seq<string>)
    ensures |ls| == |fs|
    ensures forall i :: 0 <= i < |fs| ==> ls[i] == FieldLine(fs[i])
    decreases |fs|
  {
    if |fs| == 0 then [] else [FieldLine(fs[0])] + FieldLines(fs[1..])
  }

  /** The text of a schema block. */
  function RenderSchema(s: Schema): string {
    "schema " + s.name + " {\n" + Join(",\n", FieldLines(s.fields)) + "\n}"
  }

  /** generateSchemaFromObject: the block's text, or a throw on null. */
  function GenerateSchemaFromObject(sample: Json, name: string): (r: Option<string>)
    ensures r.None? <==> sample.JNull?
  {
    var s :- BuildSchema(sample, name);
    Some(RenderSchema(s))
  }

  /** A scalar sample has no entries: the block is empty. */
  lemma ScalarSampleIsEmpty(sample: Json, name: string)
    requires sample.JBool? || sample.JNum?
    ensures GenerateSchemaFromObject(sample, name) == Some("schema " + name + " {\n\n}")
  {
    assert BuildSchema(sample, name) == Some(Schema(name, []));
    assert Join(",\n", FieldLines([])) == "";
    assert "schema " + name + " {\n" + "" + "\n}" == "schema " + name + " {\n\n}";
  }

  predicate NamesNewlineFree(s: Schema) {
    NewlineFree(s.name) && forall i :: 0 <= i < |s.fields| ==> NewlineFree(s.fields[i].name)
  }

  /** The lines of a schema block: the header, then one line per field in
      order with a comma on all but the last (a single blank line when there
      are none), then the closing brace. */
  function SchemaLines(s: Schema): seq<string> {
    ["schema " + s.name + " {"] + BodyLines(FieldLines(s.fields)) + ["}"]
  }

  lemma DigitsNewlineFree(n: nat)
    ensures NewlineFree(NatToString(n))
  {
    var d := NatToString(n);
    assert AllDigits(d);
    forall k | 0 <= k < |d|
      ensures d[k] != '\n'
    {
      assert IsDigit(d[k]);
    }
  }

  lemma RangeNewlineFree(lo: nat, hi: nat)
    ensures NewlineFree(RangeText(lo, hi))
  {
    DigitsNewlineFree(lo);
    DigitsNewlineFree(hi);
    NewlineFreeConcat(NatToString(lo), "..");
    NewlineFreeConcat(NatToString(lo) + "..", NatToString(hi));
  }

  lemma RenderNewlineFree(t: TypeAnn)
    ensures NewlineFree(Render(t))
  {
    match t
    case IntRange(lo, hi) =>
      RangeNewlineFree(lo, hi);
      NewlineFreeConcat("int in ", RangeText(lo, hi));
    case DecimalRange(lo, hi) =>
      RangeNewlineFree(lo, hi);
      NewlineFreeConcat("decimal in ", RangeText(lo, hi));
    case _ =>
  }

  lemma FieldLinesNewlineFree(s: Schema)
    requires NamesNewlineFree(s)
    ensures AllNewlineFree(FieldLines(s.fields))
  {
    forall i | 0 <= i < |s.fields|
      ensures NewlineFree(FieldLine(s.fields[i]))
    {
      RenderNewlineFree(s.fields[i].ty);
      assert NewlineFree(s.fields[i].name);
    }
  }

  lemma SchemaLinesNewlineFree(s: Schema)
    requires NamesNewlineFree(s)
    ensures AllNewlineFree(SchemaLines(s))
  {
    var head := "schema " + s.name + " {";
    var body := BodyLines(FieldLines(s.fields));
    HeaderNewlineFree(s.name);
    FieldLinesNewlineFree(s);
    BodyLinesNewlineFree(FieldLines(s.fields));
    AllNewlineFreeAppend([head], body);
    assert AllNewlineFree(["}"]);
    AllNewlineFreeAppend([head] + body, ["}"]);
  }

  lemma HeaderNewlineFree(name: string)
    requires NewlineFree(name)
    ensures AllNewlineFree(["schema " + name + " {"])
  {
    NewlineFreeConcat("schema ", name);
    NewlineFreeConcat("schema " + name, " {");
  }

  /** Rendering a schema is writing its lines one under the other. */
  lemma RenderSchemaAsLines(s: Schema)
    ensures RenderSchema(s) == Join("\n", SchemaLines(s))
  {
    Framed("schema " + s.name + " {", FieldLines(s.fields), "}");
  }

  /** Read back line by line, a rendered schema block has one header, one
      line per field of the sample in the sample's order, and the closing
      brace: the field count of the text is the entry count of the sample. */
  lemma SchemaLayout(s: Schema)
    requires NamesNewlineFree(s)
    ensures Split(RenderSchema(s), '\n') == SchemaLines(s)
    ensures |s.fields| > 0 ==> |Split(RenderSchema(s), '\n')| == |s.fields| + 2
  {
    RenderSchemaAsLines(s);
    SchemaLinesNewlineFree(s);
    SplitJoin(SchemaLines(s), '\n');
  }
}
