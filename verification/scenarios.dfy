/** Whole-call outputs for concrete samples, written line by line. */
module Scenarios {
  import opened Text
  import opened Results
  import opened JsonValues
  import opened TypeInference
  import opened Naming
  import opened SchemaBuilder
  import opened DocumentInference
  import opened DocumentLayout
  import opened CsvAdapter
  import opened Inference

  // ---------------------------------------------------------------------
  // Shapes shared by the samples
  // ---------------------------------------------------------------------

  /** The lines of a document with one two-field schema and one dataset
      line, written from the pieces each line is made of. */
  lemma TwoFieldDocumentLines(name: string, f: Field, g: Field, d: DatasetLine,
                              hl: string, fl: string, gl: string, dl: string)
    requires "schema " + name + " {" == hl
    requires FieldLine(f) + "," == fl && FieldLine(g) == gl && RenderDatasetLine(d) == dl
    ensures DocumentLines(Document([Schema(name, [f, g])], [d]))
         == [hl, fl, gl, "}", "", "dataset InferredData {", dl, "}"]
  {
    assert DatasetTexts([d]) == [dl];
    assert FieldLines([f, g]) == [FieldLine(f), gl];
    assert SectionLines([Schema(name, [f, g])]) == SchemaLines(Schema(name, [f, g]));
  }

  // ---------------------------------------------------------------------
  // JSON: a "people" collection
  // ---------------------------------------------------------------------

  const Alice := JObj([("name", JStr("Alice")), ("age", JNum(30.0))])
  const Bob := JObj([("name", JStr("Bob")), ("age", JNum(25.0))])
  const PeopleFields := [Field("name", StringType), Field("age", IntRange(0, 1000))]
  const PeopleDoc := Document([Schema("People", PeopleFields)], [DatasetLine("people", 2, "People")])

  lemma AliceFields()
    ensures FieldsOf(Alice.members) == PeopleFields
  {
    assert InferType(JStr("Alice")) == StringType;
    assert InferType(JNum(30.0)) == IntRange(0, 1000);
  }

  lemma PeopleSchema()
    ensures CollectionSchema("people", [Alice, Bob]) == Some(Schema("People", PeopleFields))
  {
    AliceFields();
    PeopleIsKept();
    assert BuildSchema(Alice, "People") == Some(Schema("People", FieldsOf(Alice.members)));
  }

  lemma PeopleDocument()
    ensures InferDocument(JObj([("people", JArr([Alice, Bob]))])) == Some(PeopleDoc)
  {
    var members := [("people", JArr([Alice, Bob]))];
    assert Entries(JObj(members)) == Some(members);
    assert InferDocument(JObj(members)) == Collect(members);
    assert Collections(members) == members;
    assert !HasNullSample(members[0]);
    var r := Collect(members);
    assert r.Some?;
    PeopleSchema();
    PeopleIsKept();
    assert Some(r.value.schemas[0]) == CollectionSchema("people", [Alice, Bob]);
    assert r.value.datasets[0] == DatasetLine("people", 2, "People");
    assert r.value.schemas == [Schema("People", PeopleFields)];
    assert r.value.datasets == [DatasetLine("people", 2, "People")];
  }

  lemma PeopleLiterals()
    ensures "schema " + "People" + " {" == "schema People {"
    ensures "  " + "name" + ": " + "string" + "," == "  name: string,"
    ensures "  " + "age" + ": " + "int in 0..1000" == "  age: int in 0..1000"
    ensures "  " + "people" + ": " + "2" + " of " + "People" == "  people: 2 of People"
  {
  }

  lemma PeopleLines()
    ensures DocumentLines(PeopleDoc)
         == ["schema People {", "  name: string,", "  age: int in 0..1000", "}",
             "", "dataset InferredData {", "  people: 2 of People", "}"]
  {
    RenderedDefaults();
    assert NatToString(2) == "2";
    PeopleLiterals();
    TwoFieldDocumentLines("People", PeopleFields[0], PeopleFields[1], PeopleDoc.datasets[0],
                          "schema People {", "  name: string,", "  age: int in 0..1000", "  people: 2 of People");
  }

  /** A "people" collection keeps its name (it does not end in "s"), takes
      its fields from the first person only, and counts both people. */
  lemma PeopleOutput()
    ensures InferFromJson(JObj([("people", JArr([Alice, Bob]))]))
         == Some(Join("\n", [
              "schema People {",
              "  name: string,",
              "  age: int in 0..1000",
              "}",
              "",
              "dataset InferredData {",
              "  people: 2 of People",
              "}"]))
  {
    PeopleDocument();
    DocumentAsLines(PeopleDoc);
    PeopleLines();
  }

  // ---------------------------------------------------------------------
  // JSON: a bare array whose first element is a string
  // ---------------------------------------------------------------------

  const HiFields := [Field("0", StringType), Field("1", StringType)]
  const HiDoc := Document([Schema("Item", HiFields)], [DatasetLine("items", 1, "Item")])

  lemma HiDocument()
    ensures InferDocument(JArr([JStr("hi")])) == Some(HiDoc)
  {
    assert NatToString(0) == "0" && NatToString(1) == "1";
    var es := Entries(JStr("hi")).value;
    assert es == [("0", JStr("h")), ("1", JStr("i"))];
    assert FieldsOf(es) == HiFields;
  }

  lemma HiLiterals()
    ensures "schema " + "Item" + " {" == "schema Item {"
    ensures "  " + "0" + ": " + "string" + "," == "  0: string,"
    ensures "  " + "1" + ": " + "string" == "  1: string"
    ensures "  " + "items" + ": " + "1" + " of " + "Item" == "  items: 1 of Item"
  {
  }

  lemma HiLines()
    ensures DocumentLines(HiDoc)
         == ["schema Item {", "  0: string,", "  1: string", "}",
             "", "dataset InferredData {", "  items: 1 of Item", "}"]
  {
    assert NatToString(1) == "1";
    HiLiterals();
    TwoFieldDocumentLines("Item", HiFields[0], HiFields[1], HiDoc.datasets[0],
                          "schema Item {", "  0: string,", "  1: string", "  items: 1 of Item");
  }

  /** The first element is taken as it is: a string spreads into one field
      per character, keyed by position. */
  lemma StringSampleOutput()
    ensures InferFromJson(JArr([JStr("hi")]))
         == Some(Join("\n", [
              "schema Item {",
              "  0: string,",
              "  1: string",
              "}",
              "",
              "dataset InferredData {",
              "  items: 1 of Item",
              "}"]))
  {
    HiDocument();
    DocumentAsLines(HiDoc);
    HiLines();
  }

  // ---------------------------------------------------------------------
  // CSV
  // ---------------------------------------------------------------------

  const Table := "a,b\n1,2\n3,4"
  const TableFields := [Field("a", StringType), Field("b", StringType)]
  const TableDoc := Document([Schema("Item", TableFields)], [DatasetLine("items", 2, "Item")])

  lemma TrimKeeps(s: string)
    requires |s| > 0 && !IsTrimmable(s[0]) && !IsTrimmable(s[|s| - 1])
    ensures Trim(s) == s
  {
    assert "" + s + "" == s;
    TrimPadded("", s, "");
  }

  /** Three pieces joined by a separator. */
  lemma JoinThree(sep: string, a: string, b: string, c: string)
    ensures Join(sep, [a, b, c]) == a + sep + b + sep + c
  {
    assert [a, b, c][1..] == [b, c];
    assert [b, c][1..] == [c];
    assert Join(sep, [c]) == c;
    assert Join(sep, [b, c]) == b + sep + c;
  }

  /** Splitting text with exactly two separators. */
  lemma SplitThree(a: string, b: string, c: string, sep: char)
    requires sep !in a && sep !in b && sep !in c
    ensures Split(a + [sep] + b + [sep] + c, sep) == [a, b, c]
  {
    JoinThree([sep], a, b, c);
    assert forall i :: 0 <= i < 3 ==> sep !in [a, b, c][i];
    SplitJoin([a, b, c], sep);
  }

  /** Splitting text with exactly one separator. */
  lemma SplitTwo(a: string, b: string, sep: char)
    requires sep !in a && sep !in b
    ensures Split(a + [sep] + b, sep) == [a, b]
  {
    assert [a, b][1..] == [b];
    assert Join([sep], [a, b]) == a + [sep] + b;
    SplitJoin([a, b], sep);
  }

  lemma TableText()
    ensures "a,b" + "\n" + "1,2" + "\n" + "3,4" == Table
    ensures !IsTrimmable(Table[0]) && !IsTrimmable(Table[|Table| - 1])
    ensures '\n' !in "a,b" && '\n' !in "1,2" && '\n' !in "3,4"
  {
  }

  lemma TableLines()
    ensures CsvLines(Table) == ["a,b", "1,2", "3,4"]
  {
    TableText();
    TrimKeeps(Table);
    SplitThree("a,b", "1,2", "3,4", '\n');
  }

  lemma TwoCells(line: string, a: char, b: char)
    requires line == [a] + [','] + [b] && a != ',' && b != ','
    requires !IsTrimmable(a) && !IsTrimmable(b)
    ensures Cells(line) == [[a], [b]]
  {
    SplitTwo([a], [b], ',');
    var ts := TrimEach([[a], [b]]);
    TrimKeeps([a]);
    TrimKeeps([b]);
    assert ts[0] == [a] && ts[1] == [b];
  }

  lemma CellTexts()
    ensures "a,b" == ['a'] + [','] + ['b'] && "1,2" == ['1'] + [','] + ['2']
    ensures !IsTrimmable('a') && !IsTrimmable('b') && !IsTrimmable('1') && !IsTrimmable('2')
  {
  }

  lemma TableFieldsFromCells()
    ensures CsvFields(["a", "b"], ["1", "2"]) == TableFields
  {
    assert !HasDatePrefix("1") && !HasDatePrefix("2");
    assert CellType(["1", "2"], 0) == StringType;
    assert CellType(["1", "2"], 1) == StringType;
  }

  lemma HeaderCells()
    ensures Cells("a,b") == ["a", "b"]
  {
    CellTexts();
    TwoCells("a,b", 'a', 'b');
  }

  lemma SampleCells()
    ensures Cells("1,2") == ["1", "2"]
  {
    CellTexts();
    TwoCells("1,2", '1', '2');
  }

  lemma TableDocument()
    ensures LinesDocument(["a,b", "1,2", "3,4"]) == TableDoc
  {
    var lines := ["a,b", "1,2", "3,4"];
    HeaderCells();
    SampleCells();
    TableFieldsFromCells();
    assert LinesDocument(lines) == ItemDocument(CsvFields(Cells(lines[0]), Cells(lines[1])), 2);
  }

  lemma TableLiterals()
    ensures "schema " + "Item" + " {" == "schema Item {"
    ensures "  " + "a" + ": " + "string" + "," == "  a: string,"
    ensures "  " + "b" + ": " + "string" == "  b: string"
    ensures "  " + "items" + ": " + "2" + " of " + "Item" == "  items: 2 of Item"
  {
  }

  lemma TableDocumentLines()
    ensures DocumentLines(TableDoc)
         == ["schema Item {", "  a: string,", "  b: string", "}",
             "", "dataset InferredData {", "  items: 2 of Item", "}"]
  {
    assert NatToString(2) == "2";
    TableLiterals();
    TwoFieldDocumentLines("Item", TableFields[0], TableFields[1], TableDoc.datasets[0],
                          "schema Item {", "  a: string,", "  b: string", "  items: 2 of Item");
  }

  /** CSV cells are never coerced: numeric-looking cells give string
      fields, and three lines give a count of two. */
  lemma CsvTableOutput(parse: string -> Option<Json>)
    ensures InferSchema(Table, "csv", parse)
         == Ok(Join("\n", [
              "schema Item {",
              "  a: string,",
              "  b: string",
              "}",
              "",
              "dataset InferredData {",
              "  items: 2 of Item",
              "}"]))
  {
    FormatIsNotJson();
    TableLines();
    TableDocument();
    assert InferSchema(Table, "csv", parse) == LinesText(["a,b", "1,2", "3,4"]);
    DocumentAsLines(TableDoc);
    TableDocumentLines();
  }

  lemma FormatIsNotJson()
    ensures "csv" != "json"
  {
    assert "csv"[0] != "json"[0];
  }

  lemma HeaderOnlyText()
    ensures !IsTrimmable("a,b"[0]) && !IsTrimmable("a,b"[2])
    ensures '\n' !in "a,b"
  {
  }

  /** A header without a data row is rejected. */
  lemma CsvHeaderOnly(parse: string -> Option<Json>)
    ensures InferSchema("a,b", "csv", parse) == Err(CsvTooShort)
  {
    FormatIsNotJson();
    HeaderOnlyText();
    TrimKeeps("a,b");
    SingleLineCsvIsRejected("a,b", "csv", parse);
  }
}
