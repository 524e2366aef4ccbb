/** The document-level inferrer: dispatch over a decoded JSON root and
    assembly of the final text (app/api/infer/route.ts, inferFromJSON). */
module DocumentInference {
  import opened Text
  import opened Results
  import opened JsonValues
  import opened Naming
  import opened SchemaBuilder

  /** `  collection: count of SchemaName` inside the dataset block. */
  datatype DatasetLine = DatasetLine(collection: string, count: nat, schemaName: string)

  /** What inferFromJSON collects before assembling: the schema blocks and
      the dataset lines, in the order they are pushed. */
  datatype Document = Document(schemas: seq<Schema>, datasets: seq<DatasetLine>)

  const EmptyDocument := Document([], [])

  /** The collection and schema names used for a bare array root. */
  const ItemsCollection: string := "items"
  const ItemSchema: string := "Item"

  /** Each dataset line is pushed together with its schema, so the i-th line
      names the i-th schema, which comes earlier in the output. */
  predicate WellFormed(doc: Document) {
    && |doc.schemas| == |doc.datasets|
    && forall i :: 0 <= i < |doc.datasets| ==> doc.datasets[i].schemaName == doc.schemas[i].name
  }

  // ---------------------------------------------------------------------
  // Rendering
  // ---------------------------------------------------------------------

  function RenderDatasetLine(d: DatasetLine): string {
    "  " + d.collection + ": " + NatToString(d.count) + " of " + d.schemaName
  }

  function SchemaTexts(ss: seq<Schema>): (ts: seq<string>)
    ensures |ts| == |ss|
    ensures forall i :: 0 <= i < |ss| ==> ts[i] == RenderSchema(ss[i])
    decreases |ss|
  {
    if |ss| == 0 then [] else [RenderSchema(ss[0])] + SchemaTexts(ss[1..])
  }

  function DatasetTexts(ds: seq<DatasetLine>): (ts: seq<string>)
    ensures |ts| == |ds|
    ensures forall i :: 0 <= i < |ds| ==> ts[i] == RenderDatasetLine(ds[i])
    decreases |ds|
  {
    if |ds| == 0 then [] else [RenderDatasetLine(ds[0])] + DatasetTexts(ds[1..])
  }

  /** The schema blocks separated by blank lines, then exactly one dataset
      block, present even when there are no schemas. */
  function RenderDocument(doc: Document): string {
    Join("\n\n", SchemaTexts(doc.schemas))
      + "\n\ndataset InferredData {\n"
      + Join(",\n", DatasetTexts(doc.datasets))
      + "\n}"
  }

  // ---------------------------------------------------------------------
  // Collections of an object root
  // ---------------------------------------------------------------------

  /** The members whose value is a non-empty array, in member order: the
      ones the loop over Object.entries turns into schemas. */
  function Collections(members: seq<(string, Json)>): (cs: seq<(string, Json)>)
    ensures |cs| <= |members|
    ensures forall i :: 0 <= i < |cs| ==> IsNonEmptyArray(cs[i].1) && cs[i] in members
    ensures forall m :: m in members && IsNonEmptyArray(m.1) ==> m in cs
    decreases |members|
  {
    if |members| == 0 then []
    else if IsNonEmptyArray(members[0].1) then [members[0]] + Collections(members[1..])
    else Collections(members[1..])
  }

  /** Filtering keeps the order: the collections of a concatenation are
      the collections of the first part followed by those of the second. */
  lemma {:induction false} CollectionsAppend(a: seq<(string, Json)>, b: seq<(string, Json)>)
    ensures Collections(a + b) == Collections(a) + Collections(b)
    decreases |a|
  {
    if |a| > 0 {
      assert (a + b)[0] == a[0];
      assert (a + b)[1..] == a[1..] + b;
      CollectionsAppend(a[1..], b);
    } else {
      assert a + b == b;
    }
  }

  /** A collection whose first element is null makes Object.entries throw. */
  predicate HasNullSample(m: (string, Json)) {
    IsNonEmptyArray(m.1) && m.1.items[0].JNull?
  }

  /** The schema and dataset line pushed for one collection. */
  function CollectionSchema(key: string, items: seq<Json>): Option<Schema>
    requires |items| > 0
  {
    BuildSchema(items[0], SchemaName(key))
  }

  /** The loop of inferFromJSON over the entries of an object root, from
      the first entry on, pushing one schema and one dataset line per
      collection and stopping with a throw at a null sample. */
  function Collect(members: seq<(string, Json)>): (r: Option<Document>)
    ensures r.None? <==> exists i :: 0 <= i < |members| && HasNullSample(members[i])
    ensures r.Some? ==> WellFormed(r.value)
    ensures r.Some? ==> |r.value.schemas| == |Collections(members)|
    ensures r.Some? ==> forall i :: 0 <= i < |Collections(members)| ==>
      var (key, value) := Collections(members)[i];
      && r.value.datasets[i] == DatasetLine(key, |value.items|, SchemaName(key))
      && Some(r.value.schemas[i]) == CollectionSchema(key, value.items)
    decreases |members|
  {
    if |members| == 0 then Some(EmptyDocument)
    else
      var n := |members| - 1;
      var (key, value) := members[n];
      CollectionsAppend(members[..n], [members[n]]);
      assert members[..n] + [members[n]] == members;
      var doc :- Collect(members[..n]);
      if IsNonEmptyArray(value) then
        var schema :- CollectionSchema(key, value.items);
        Some(Document(doc.schemas + [schema],
                      doc.datasets + [DatasetLine(key, |value.items|, SchemaName(key))]))
      else
        Some(doc)
  }

  // ---------------------------------------------------------------------
  // Dispatch
  // ---------------------------------------------------------------------

  /** The values whose JavaScript type tag is "object": null, arrays and
      objects. */
  predicate IsTypeofObject(v: Json) {
    v.JNull? || v.JArr? || v.JObj?
  }

  /** The document inferFromJSON builds, or None where it throws. */
  function InferDocument(data: Json): (r: Option<Document>)
    ensures r.Some? ==> WellFormed(r.value)
    ensures r.None? <==> || data.JNull?
                         || (data.JArr? && |data.items| > 0 && data.items[0].JNull?)
                         || (data.JObj? && exists i :: 0 <= i < |data.members| && HasNullSample(data.members[i]))
    ensures data.JArr? && |data.items| == 0 ==> r == Some(EmptyDocument)
    ensures data.JArr? && r.Some? && |data.items| > 0 ==>
      && |r.value.schemas| == 1
      && r.value.datasets == [DatasetLine(ItemsCollection, |data.items|, ItemSchema)]
      && Some(r.value.schemas[0]) == BuildSchema(data.items[0], ItemSchema)
    ensures data.JObj? && r.Some? ==> |r.value.schemas| == |Collections(data.members)|
    ensures !IsTypeofObject(data) ==> r == Some(EmptyDocument)
  {
    if data.JArr? then
      if |data.items| > 0 then
        var schema :- BuildSchema(data.items[0], ItemSchema);
        Some(Document([schema], [DatasetLine(ItemsCollection, |data.items|, ItemSchema)]))
      else
        Some(EmptyDocument)
    else if IsTypeofObject(data) then
      var members :- Entries(data);
      Collect(members)
    else
      Some(EmptyDocument)
  }

  /** inferFromJSON: the assembled text, or None where it throws. */
  function InferFromJson(data: Json): (r: Option<string>)
    ensures r.None? <==> InferDocument(data).None?
  {
    var doc :- InferDocument(data);
    Some(RenderDocument(doc))
  }
}
