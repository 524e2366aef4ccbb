/** The text inferFromJSON assembles, read back line by line, and the exact
    outputs of the simple roots. */
module DocumentLayout {
  import opened Text
  import opened Results
  import opened JsonValues
  import opened Naming
  import opened SchemaBuilder
  import opened Lines
  import opened DocumentInference

  const DatasetHeader: string := "dataset InferredData {"

  /** The lines of the schema section: each block's lines, with one blank
      line between neighbouring blocks; a single empty line when there is
      no block. */
  function SectionLines(ss: seq<Schema>): (ls: seq<string>)
    ensures |ls| > 0
    decreases |ss|
  {
    if |ss| == 0 then [""]
    else if |ss| == 1 then SchemaLines(ss[0])
    else SchemaLines(ss[0]) + [""] + SectionLines(ss[1..])
  }

  /** The schema section, a blank line, the dataset header, one line per
      dataset declaration with a comma on all but the last, the closing
      brace. */
  function DocumentLines(doc: Document): seq<string> {
    SectionLines(doc.schemas) + ["", DatasetHeader] + BodyLines(DatasetTexts(doc.datasets)) + ["}"]
  }

  predicate DocumentNewlineFree(doc: Document) {
    && (forall i :: 0 <= i < |doc.schemas| ==> NamesNewlineFree(doc.schemas[i]))
    && (forall i :: 0 <= i < |doc.datasets| ==>
          NewlineFree(doc.datasets[i].collection) && NewlineFree(doc.datasets[i].schemaName))
  }

  lemma {:induction false} SectionAsLines(ss: seq<Schema>)
    ensures Join("\n\n", SchemaTexts(ss)) == Join("\n", SectionLines(ss))
    decreases |ss|
  {
    if |ss| == 1 {
      RenderSchemaAsLines(ss[0]);
    } else if |ss| > 1 {
      var ts := SchemaTexts(ss);
      var l0, rest := SchemaLines(ss[0]), SectionLines(ss[1..]);
      calc {
        Join("\n\n", ts);
        { assert ts[1..] == SchemaTexts(ss[1..]); }
        RenderSchema(ss[0]) + "\n\n" + Join("\n\n", SchemaTexts(ss[1..]));
        { RenderSchemaAsLines(ss[0]);
          SectionAsLines(ss[1..]); }
        Join("\n", l0) + "\n\n" + Join("\n", rest);
        { BlankLineGlue(Join("\n", l0), Join("\n", rest)); }
        (Join("\n", l0) + "\n" + "") + "\n" + Join("\n", rest);
        { JoinAppend("\n", l0, [""]); }
        Join("\n", l0 + [""]) + "\n" + Join("\n", rest);
        { JoinAppend("\n", l0 + [""], rest); }
        Join("\n", l0 + [""] + rest);
      }
    }
  }

  /** A blank line between two blocks. */
  lemma BlankLineGlue(a: string, b: string)
    ensures a + "\n\n" + b == (a + "\n" + "") + "\n" + b
  {
  }

  /** The literal glue of the dataset block, as lines. */
  lemma DatasetGlue(a: string, b: string)
    ensures a + "\n\ndataset InferredData {\n" + b + "\n}"
         == (a + "\n" + "") + "\n" + (DatasetHeader + "\n" + b + "\n" + "}")
  {
  }

  lemma LinesRegroup(sl: seq<string>, bl: seq<string>)
    ensures sl + ["", DatasetHeader] + bl + ["}"] == (sl + [""]) + ([DatasetHeader] + bl + ["}"])
  {
  }

  lemma DocumentAsLines(doc: Document)
    ensures RenderDocument(doc) == Join("\n", DocumentLines(doc))
  {
    var sl := SectionLines(doc.schemas);
    var dt := DatasetTexts(doc.datasets);
    var tail := [DatasetHeader] + BodyLines(dt) + ["}"];
    var a := Join("\n\n", SchemaTexts(doc.schemas));
    var b := Join(",\n", dt);
    calc {
      RenderDocument(doc);
      a + "\n\ndataset InferredData {\n" + b + "\n}";
      { DatasetGlue(a, b); }
      (a + "\n" + "") + "\n" + (DatasetHeader + "\n" + b + "\n" + "}");
      { SectionAsLines(doc.schemas);
        JoinAppend("\n", sl, [""]); }
      Join("\n", sl + [""]) + "\n" + (DatasetHeader + "\n" + b + "\n" + "}");
      { Framed(DatasetHeader, dt, "}"); }
      Join("\n", sl + [""]) + "\n" + Join("\n", tail);
      { JoinAppend("\n", sl + [""], tail); }
      Join("\n", (sl + [""]) + tail);
      { LinesRegroup(sl, BodyLines(dt)); }
      Join("\n", DocumentLines(doc));
    }
  }

  lemma DatasetTextsNewlineFree(doc: Document)
    requires DocumentNewlineFree(doc)
    ensures AllNewlineFree(DatasetTexts(doc.datasets))
  {
    forall i | 0 <= i < |doc.datasets|
      ensures NewlineFree(RenderDatasetLine(doc.datasets[i]))
    {
      var d := doc.datasets[i];
      assert NewlineFree(d.collection) && NewlineFree(d.schemaName);
      assert '\n' !in NatToString(d.count) by { assert AllDigits(NatToString(d.count)); }
    }
  }

  lemma {:induction false} SectionLinesNewlineFree(ss: seq<Schema>)
    requires forall i :: 0 <= i < |ss| ==> NamesNewlineFree(ss[i])
    ensures AllNewlineFree(SectionLines(ss))
    decreases |ss|
  {
    if |ss| > 0 {
      SchemaLinesNewlineFree(ss[0]);
    }
    if |ss| > 1 {
      SectionLinesNewlineFree(ss[1..]);
      AllNewlineFreeAppend(SchemaLines(ss[0]), [""]);
      AllNewlineFreeAppend(SchemaLines(ss[0]) + [""], SectionLines(ss[1..]));
    }
  }

  lemma GlueNewlineFree()
    ensures AllNewlineFree(["", DatasetHeader]) && AllNewlineFree(["}"])
  {
    assert NewlineFree(DatasetHeader);
  }

  lemma DocumentLinesNewlineFree(doc: Document)
    requires DocumentNewlineFree(doc)
    ensures AllNewlineFree(DocumentLines(doc))
  {
    var sl := SectionLines(doc.schemas);
    var bl := BodyLines(DatasetTexts(doc.datasets));
    SectionLinesNewlineFree(doc.schemas);
    DatasetTextsNewlineFree(doc);
    BodyLinesNewlineFree(DatasetTexts(doc.datasets));
    GlueNewlineFree();
    AllNewlineFreeAppend(sl, ["", DatasetHeader]);
    AllNewlineFreeAppend(sl + ["", DatasetHeader], bl);
    AllNewlineFreeAppend(sl + ["", DatasetHeader] + bl, ["}"]);
  }

  /** Read back line by line, the output is the schema blocks separated by
      blank lines, then the dataset block with one line per collection, in
      the order the collections were met. */
  lemma DocumentLayout(doc: Document)
    requires DocumentNewlineFree(doc)
    ensures Split(RenderDocument(doc), '\n') == DocumentLines(doc)
  {
    DocumentAsLines(doc);
    DocumentLinesNewlineFree(doc);
    SplitJoin(DocumentLines(doc), '\n');
  }

  // ---------------------------------------------------------------------
  // Exactly one dataset block
  // ---------------------------------------------------------------------

  /** Number of positions of `xs` holding `x`. */
  function Occurrences(xs: seq<string>, x: string): nat
    decreases |xs|
  {
    if |xs| == 0 then 0 else (if xs[0] == x then 1 else 0) + Occurrences(xs[1..], x)
  }

  lemma {:induction false} OccurrencesAppend(a: seq<string>, b: seq<string>, x: string)
    ensures Occurrences(a + b, x) == Occurrences(a, x) + Occurrences(b, x)
    decreases |a|
  {
    if |a| == 0 {
      assert a + b == b;
    } else {
      assert (a + b)[1..] == a[1..] + b;
      OccurrencesAppend(a[1..], b, x);
    }
  }

  lemma {:induction false} OccurrencesAbsent(xs: seq<string>, x: string)
    requires x !in xs
    ensures Occurrences(xs, x) == 0
    decreases |xs|
  {
    if |xs| > 0 {
      assert xs == [xs[0]] + xs[1..];
      OccurrencesAbsent(xs[1..], x);
    }
  }

  /** The lines of a comma-joined body of indented lines all start with a
      space or are empty: none is the dataset header. */
  lemma IndentedBodyHasNoHeader(xs: seq<string>)
    requires forall i :: 0 <= i < |xs| ==> |xs[i]| > 0 && xs[i][0] == ' '
    ensures DatasetHeader !in BodyLines(xs)
  {
    if |xs| > 0 {
      forall i | 0 <= i < |xs|
        ensures CommaLines(xs)[i] != DatasetHeader
      {
        assert CommaLines(xs)[i][0] == ' ';
      }
    }
  }

  lemma SchemaHasNoHeader(s: Schema)
    ensures DatasetHeader !in SchemaLines(s)
  {
    var fl := FieldLines(s.fields);
    forall i | 0 <= i < |fl|
      ensures |fl[i]| > 0 && fl[i][0] == ' '
    {
      assert fl[i] == FieldLine(s.fields[i]);
    }
    IndentedBodyHasNoHeader(fl);
    var head := "schema " + s.name + " {";
    assert head[0] == 's';
    assert head != DatasetHeader;
  }

  lemma {:induction false} SectionHasNoHeader(ss: seq<Schema>)
    ensures DatasetHeader !in SectionLines(ss)
    decreases |ss|
  {
    if |ss| > 0 {
      SchemaHasNoHeader(ss[0]);
    }
    if |ss| > 1 {
      SectionHasNoHeader(ss[1..]);
    }
  }

  /** The assembled text holds the dataset header line exactly once, with or
      without schemas before it. */
  lemma OneDatasetBlock(doc: Document)
    requires DocumentNewlineFree(doc)
    ensures Occurrences(Split(RenderDocument(doc), '\n'), DatasetHeader) == 1
  {
    DocumentLayout(doc);
    var sl := SectionLines(doc.schemas);
    var dt := DatasetTexts(doc.datasets);
    var bl := BodyLines(dt);
    SectionHasNoHeader(doc.schemas);
    OccurrencesAbsent(sl, DatasetHeader);
    forall i | 0 <= i < |dt|
      ensures |dt[i]| > 0 && dt[i][0] == ' '
    {
      assert dt[i] == RenderDatasetLine(doc.datasets[i]);
    }
    IndentedBodyHasNoHeader(dt);
    OccurrencesAbsent(bl, DatasetHeader);
    OccurrencesAppend(sl, ["", DatasetHeader], DatasetHeader);
    OccurrencesAppend(sl + ["", DatasetHeader], bl, DatasetHeader);
    OccurrencesAppend(sl + ["", DatasetHeader] + bl, ["}"], DatasetHeader);
    assert Occurrences(["", DatasetHeader], DatasetHeader) == 1 by {
      assert ["", DatasetHeader][1..] == [DatasetHeader];
      assert [DatasetHeader][1..] == [];
    }
    assert Occurrences(["}"], DatasetHeader) == 0 by {
      assert ["}"][1..] == [];
    }
  }

  // ---------------------------------------------------------------------
  // Exact output per kind of root
  // ---------------------------------------------------------------------

  /** The text when nothing is collected: no schema, an empty dataset block. */
  const EmptyOutput: string := "\n\ndataset InferredData {\n\n}"

  /** A scalar root, an empty array, or an object none of whose members is
      a non-empty array yields the empty dataset block and nothing else. */
  lemma EmptyRootOutput(data: Json)
    requires !data.JNull?
    requires data.JArr? ==> |data.items| == 0
    requires data.JObj? ==> |Collections(data.members)| == 0
    ensures InferFromJson(data) == Some(EmptyOutput)
  {
    assert InferDocument(data) == Some(EmptyDocument);
    assert Join(",\n", DatasetTexts([])) == "";
    assert Join("\n\n", SchemaTexts([])) == "";
    assert "" + "\n\ndataset InferredData {\n" + "" + "\n}" == EmptyOutput;
  }

  /** A null root makes Object.entries throw. */
  lemma NullRootThrows()
    ensures InferFromJson(JNull) == None
  {
  }

  /** A document with one schema and one dataset line. */
  lemma SingleCollectionText(sc: Schema, d: DatasetLine)
    ensures RenderDocument(Document([sc], [d]))
         == RenderSchema(sc) + "\n\ndataset InferredData {\n" + RenderDatasetLine(d) + "\n}"
  {
    assert SchemaTexts([sc]) == [RenderSchema(sc)];
    assert DatasetTexts([d]) == [RenderDatasetLine(d)];
  }

  lemma ItemsGlue(t: string, n: string)
    ensures t + "\n\ndataset InferredData {\n" + ("  items: " + n + " of Item") + "\n}"
         == t + "\n\ndataset InferredData {\n  items: " + n + " of Item\n}"
  {
  }

  lemma ItemsLineText(n: nat)
    ensures RenderDatasetLine(DatasetLine(ItemsCollection, n, ItemSchema))
         == "  items: " + NatToString(n) + " of Item"
  {
  }

  lemma ArrayRootDocument(items: seq<Json>)
    requires |items| > 0 && !items[0].JNull?
    ensures InferFromJson(JArr(items))
         == Some(RenderDocument(Document([BuildSchema(items[0], ItemSchema).value],
                                         [DatasetLine(ItemsCollection, |items|, ItemSchema)])))
  {
  }

  /** A non-empty array root: the block of the first element named Item,
      then the single dataset line counting every element. */
  lemma ArrayRootOutput(items: seq<Json>)
    requires |items| > 0 && !items[0].JNull?
    ensures InferFromJson(JArr(items))
         == Some(GenerateSchemaFromObject(items[0], "Item").value
                 + "\n\ndataset InferredData {\n  items: " + NatToString(|items|) + " of Item\n}")
  {
    var sc := BuildSchema(items[0], ItemSchema).value;
    var d := DatasetLine(ItemsCollection, |items|, ItemSchema);
    ArrayRootDocument(items);
    SingleCollectionText(sc, d);
    ItemsLineText(|items|);
    ItemsGlue(RenderSchema(sc), NatToString(|items|));
  }

  /** A collection member whose first element has entries. */
  predicate Sampled(c: (string, Json)) {
    IsNonEmptyArray(c.1) && !c.1.items[0].JNull?
  }

  /** The blocks collection members yield, in order. */
  function CollectionBlocks(cs: seq<(string, Json)>): (bs: seq<string>)
    requires forall i :: 0 <= i < |cs| ==> Sampled(cs[i])
    decreases |cs|
  {
    if |cs| == 0 then []
    else
      assert Sampled(cs[0]);
      [GenerateSchemaFromObject(cs[0].1.items[0], SchemaName(cs[0].0)).value] + CollectionBlocks(cs[1..])
  }

  /** The dataset lines collection members yield, in order. */
  function CollectionLines(cs: seq<(string, Json)>): (ls: seq<string>)
    requires forall i :: 0 <= i < |cs| ==> IsNonEmptyArray(cs[i].1)
    decreases |cs|
  {
    if |cs| == 0 then []
    else
      assert IsNonEmptyArray(cs[0].1);
      ["  " + cs[0].0 + ": " + NatToString(|cs[0].1.items|) + " of " + SchemaName(cs[0].0)]
         + CollectionLines(cs[1..])
  }

  lemma {:induction false} BlocksAreSchemaTexts(cs: seq<(string, Json)>, doc: Document)
    requires |doc.schemas| == |cs| && |doc.datasets| == |cs|
    requires forall i :: 0 <= i < |cs| ==>
      && Sampled(cs[i])
      && doc.datasets[i] == DatasetLine(cs[i].0, |cs[i].1.items|, SchemaName(cs[i].0))
      && Some(doc.schemas[i]) == CollectionSchema(cs[i].0, cs[i].1.items)
    ensures CollectionBlocks(cs) == SchemaTexts(doc.schemas)
    ensures CollectionLines(cs) == DatasetTexts(doc.datasets)
    decreases |cs|
  {
    if |cs| > 0 {
      BlocksAreSchemaTexts(cs[1..], Document(doc.schemas[1..], doc.datasets[1..]));
    }
  }

  /** An object root: for each member in order whose value is a non-empty
      array, the block of its first element under the singular capitalized
      key, and a dataset line with the key and the array's length. */
  lemma ObjectRootOutput(members: seq<(string, Json)>)
    requires forall i :: 0 <= i < |Collections(members)| ==> Sampled(Collections(members)[i])
    ensures InferFromJson(JObj(members))
         == Some(Join("\n\n", CollectionBlocks(Collections(members)))
                 + "\n\ndataset InferredData {\n"
                 + Join(",\n", CollectionLines(Collections(members)))
                 + "\n}")
  {
    NoNullSample(members);
    assert Entries(JObj(members)) == Some(members);
    var r := Collect(members);
    assert InferDocument(JObj(members)) == r;
    var doc := r.value;
    BlocksAreSchemaTexts(Collections(members), doc);
    assert InferFromJson(JObj(members)) == Some(RenderDocument(doc));
  }

  /** When every collection is sampled, no member has a null sample. */
  lemma NoNullSample(members: seq<(string, Json)>)
    requires forall i :: 0 <= i < |Collections(members)| ==> Sampled(Collections(members)[i])
    ensures forall i :: 0 <= i < |members| ==> !HasNullSample(members[i])
  {
    var cs := Collections(members);
    forall i | 0 <= i < |members| && IsNonEmptyArray(members[i].1)
      ensures !HasNullSample(members[i])
    {
      assert members[i] in cs;
      var j :| 0 <= j < |cs| && cs[j] == members[i];
      assert Sampled(cs[j]);
    }
  }
}
