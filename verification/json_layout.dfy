/** The line structure of the text inferFromJSON returns for a decoded
    root: when the keys that become names hold no line feed, the output
    splits into exactly the lines of its document, with one dataset block. */
module JsonLayout {
  import opened Text
  import opened Results
  import opened JsonValues
  import opened Naming
  import opened SchemaBuilder
  import opened Lines
  import opened DocumentInference
  import opened DocumentLayout

  /** The member keys of an object sample hold no line feed; the keys of
      any other sample are indices or absent. */
  predicate SampleKeysNewlineFree(v: Json) {
    v.JObj? ==> forall i :: 0 <= i < |v.members| ==> NewlineFree(v.members[i].0)
  }

  /** Every collection key, and every key of a collection's first element,
      is newline-free; other members do not reach the output. */
  predicate CollectionKeysNewlineFree(members: seq<(string, Json)>) {
    forall m :: m in members && IsNonEmptyArray(m.1) ==>
      NewlineFree(m.0) && SampleKeysNewlineFree(m.1.items[0])
  }

  /** The keys of a root that the output turns into names are newline-free. */
  predicate RootKeysNewlineFree(data: Json) {
    && (data.JArr? && |data.items| > 0 ==> SampleKeysNewlineFree(data.items[0]))
    && (data.JObj? ==> CollectionKeysNewlineFree(data.members))
  }

  /** Singularizing and capitalizing a key never introduces a line feed. */
  lemma SchemaNameNewlineFree(key: string)
    requires NewlineFree(key)
    ensures NewlineFree(SchemaName(key))
  {
    var s := Singular(key);
    forall k | 0 <= k < |s|
      ensures s[k] != '\n'
    {
      if EndsWith(key, "ies") && k == |s| - 1 {
        assert s[k] == 'y';
      } else {
        assert s[k] == key[k];
      }
    }
    var c := Capitalize(s);
    forall k | 0 <= k < |c|
      ensures c[k] != '\n'
    {
      if k == 0 {
        assert c[0] == UpperAscii(s[0]);
      } else {
        assert c[k] == c[1..][k - 1] == s[1..][k - 1] == s[k];
      }
    }
  }

  /** The keys Object.entries yields for a newline-free sample hold no
      line feed: object keys by assumption, index keys as numerals. */
  lemma SampleEntriesNewlineFree(sample: Json)
    requires !sample.JNull? && SampleKeysNewlineFree(sample)
    ensures forall i :: 0 <= i < |Entries(sample).value| ==> NewlineFree(Entries(sample).value[i].0)
  {
    var es := Entries(sample).value;
    forall i | 0 <= i < |es|
      ensures NewlineFree(es[i].0)
    {
      if sample.JArr? || sample.JStr? {
        assert es[i].0 == IndexKey(i);
        DigitsNewlineFree(i);
      }
    }
  }

  /** The schema built from such a sample under a newline-free name has
      newline-free names throughout. */
  lemma SampleSchemaNewlineFree(sample: Json, name: string)
    requires !sample.JNull? && SampleKeysNewlineFree(sample) && NewlineFree(name)
    ensures NamesNewlineFree(BuildSchema(sample, name).value)
  {
    SampleEntriesNewlineFree(sample);
    var es := Entries(sample).value;
    var fs := BuildSchema(sample, name).value.fields;
    assert fs == FieldsOf(es);
    assert forall i :: 0 <= i < |fs| ==> fs[i].name == es[i].0;
  }

  /** One collection's schema and dataset line are newline-free. */
  lemma CollectionNewlineFree(key: string, items: seq<Json>, schema: Schema)
    requires |items| > 0 && NewlineFree(key) && SampleKeysNewlineFree(items[0])
    requires Some(schema) == CollectionSchema(key, items)
    ensures NamesNewlineFree(schema)
    ensures NewlineFree(SchemaName(key))
  {
    SchemaNameNewlineFree(key);
    SampleSchemaNewlineFree(items[0], SchemaName(key));
  }

  /** Every schema and dataset line the loop over an object root pushes
      has newline-free names. */
  lemma CollectNewlineFree(members: seq<(string, Json)>)
    requires Collect(members).Some? && CollectionKeysNewlineFree(members)
    ensures DocumentNewlineFree(Collect(members).value)
  {
    var doc := Collect(members).value;
    var cs := Collections(members);
    forall i | 0 <= i < |cs|
      ensures NamesNewlineFree(doc.schemas[i])
      ensures NewlineFree(doc.datasets[i].collection) && NewlineFree(doc.datasets[i].schemaName)
    {
      var (key, value) := cs[i];
      assert cs[i] in members;
      CollectionNewlineFree(key, value.items, doc.schemas[i]);
    }
  }

  /** The single schema of a non-empty array root and its dataset line are
      newline-free. */
  lemma ArrayDocumentNewlineFree(data: Json)
    requires data.JArr? && |data.items| > 0 && !data.items[0].JNull?
    requires SampleKeysNewlineFree(data.items[0])
    ensures DocumentNewlineFree(InferDocument(data).value)
  {
    var doc := InferDocument(data).value;
    assert NewlineFree(ItemSchema) && NewlineFree(ItemsCollection);
    SampleSchemaNewlineFree(data.items[0], ItemSchema);
    assert doc.schemas == [BuildSchema(data.items[0], ItemSchema).value];
  }

  /** inferFromJSON's document has newline-free names whenever the keys
      that become names do. */
  lemma InferredDocumentNewlineFree(data: Json)
    requires InferDocument(data).Some? && RootKeysNewlineFree(data)
    ensures DocumentNewlineFree(InferDocument(data).value)
  {
    if data.JArr? && |data.items| > 0 {
      ArrayDocumentNewlineFree(data);
    } else if data.JObj? {
      assert Entries(data) == Some(data.members);
      CollectNewlineFree(data.members);
    } else {
      assert InferDocument(data) == Some(EmptyDocument);
    }
  }

  /** Read back line by line, the output of inferFromJSON is exactly the
      lines of its document, and the dataset block occurs once. */
  lemma JsonLayout(data: Json)
    requires InferFromJson(data).Some? && RootKeysNewlineFree(data)
    ensures Split(InferFromJson(data).value, '\n') == DocumentLines(InferDocument(data).value)
    ensures Occurrences(Split(InferFromJson(data).value, '\n'), DatasetHeader) == 1
  {
    var doc := InferDocument(data).value;
    InferredDocumentNewlineFree(data);
    assert InferFromJson(data).value == RenderDocument(doc);
    DocumentLayout.DocumentLayout(doc);
    OneDatasetBlock(doc);
  }
}
