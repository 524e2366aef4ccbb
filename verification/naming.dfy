/** The collection namer: from a collection key to a schema name
    (app/api/infer/route.ts, singular and capitalize). */
module Naming {
  import opened Text

  /** singular: a key ending in "ies" has those three characters replaced
      by "y"; otherwise a trailing "s" is dropped; otherwise the key is
      kept. The "ies" test comes first. */
  function Singular(key: string): (r: string)
    ensures EndsWith(key, "ies") ==> r == key[..|key| - 3] + "y"
    ensures !EndsWith(key, "ies") && EndsWith(key, "s") ==> r == key[..|key| - 1]
    ensures r == key <==> !EndsWith(key, "s")
  {
    if EndsWith(key, "ies") then key[..|key| - 3] + "y"
    else if EndsWith(key, "s") then key[..|key| - 1]
    else key
  }

  /** capitalize: the first character upper-cased, the rest untouched; the
      empty string stays empty. */
  function Capitalize(s: string): (r: string)
    ensures |r| == |s|
    ensures |s| > 0 ==> r[0] == UpperAscii(s[0]) && r[1..] == s[1..]
  {
    if |s| == 0 then "" else [UpperAscii(s[0])] + s[1..]
  }

  /** The schema name a collection key yields. */
  function SchemaName(key: string): string {
    Capitalize(Singular(key))
  }

  /** A schema name never starts with an ASCII lower-case letter. */
  lemma SchemaNameStartsUpper(key: string)
    requires |SchemaName(key)| > 0
    ensures !IsLowerAscii(SchemaName(key)[0])
  {
  }

  /** Capitalizing twice is capitalizing once. */
  lemma CapitalizeIdempotent(s: string)
    ensures Capitalize(Capitalize(s)) == Capitalize(s)
  {
  }

  /** Singular undoes the regular plurals: a word gains "s" (unless it
      ends in "ie", where the "ies" rule takes over) and a word ending in
      "y" becomes "ies". */
  lemma SingularOfPlural(w: string)
    ensures !EndsWith(w, "ie") ==> Singular(w + "s") == w
    ensures Singular(w + "ies") == w + "y"
  {
    var p := w + "s";
    assert p[..|p| - 1] == w;
    if !EndsWith(w, "ie") && |p| >= 3 {
      assert p[|p| - 3..] == w[|w| - 2..] + "s";
    }
    var q := w + "ies";
    assert q[|q| - 3..] == "ies";
    assert q[..|q| - 3] == w;
  }

  /** Irregular plurals are not recognised: "people" is kept, so its
      schema is People. */
  lemma PeopleIsKept()
    ensures Singular("people") == "people"
    ensures SchemaName("people") == "People"
  {
    assert !EndsWith("people", "s");
  }

  /** Names are not made unique: "user" and "users" both name User, and
      "category" and "categories" both name Category. */
  lemma NamesCollide()
    ensures SchemaName("user") == SchemaName("users") == "User"
    ensures SchemaName("category") == SchemaName("categories") == "Category"
  {
    assert !EndsWith("user", "s");
    assert "users"[..4] == "user";
    assert !EndsWith("category", "s");
    assert EndsWith("categories", "ies");
    assert "categories"[..7] == "categor";
  }
}
