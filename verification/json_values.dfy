/** Decoded JSON values and JavaScript's Object.entries over them. */
module JsonValues {
  import opened Text
  import opened Results

  /** A value as JSON.parse produces it. A number stands for the finite
      double JSON.parse rounds the literal to; the infinities it yields for
      overflowing literals have no counterpart here. An object's members are
      kept as decoded, in order and possibly with a key repeated, which no
      JavaScript object holds. */
  datatype Json =
    | JNull
    | JBool(b: bool)
    | JNum(n: real)
    | JStr(s: string)
    | JArr(items: seq<Json>)
    | JObj(members: seq<(string, Json)>)

  /** Number.isInteger on a finite number. */
  predicate IsInteger(r: real) {
    r.Floor as real == r
  }

  /** An array with at least one element: a value that names a collection. */
  predicate IsNonEmptyArray(v: Json) {
    v.JArr? && |v.items| > 0
  }

  /** The property keys JavaScript gives the elements of an array or the
      code units of a string: "0", "1", ... */
  function IndexKey(i: nat): string {
    NatToString(i)
  }

  /** Object.entries(v). It throws a TypeError on null (None here); a
      boolean or a number has no own enumerable properties; a string yields
      one single-character string per position and an array one entry per
      element, keyed by the index; an object yields its own members. */
  function Entries(v: Json): (r: Option<seq<(string, Json)>>)
    ensures r.None? <==> v.JNull?
    ensures v.JBool? || v.JNum? ==> r == Some([])
    ensures v.JObj? ==> r == Some(v.members)
    ensures v.JArr? ==> (r.Some? && |r.value| == |v.items|
      && forall i :: 0 <= i < |v.items| ==> r.value[i] == (IndexKey(i), v.items[i]))
    ensures v.JStr? ==> (r.Some? && |r.value| == |v.s|
      && forall i :: 0 <= i < |v.s| ==> r.value[i] == (IndexKey(i), JStr([v.s[i]])))
  {
    match v
    case JNull => None
    case JBool(_) => Some([])
    case JNum(_) => Some([])
    case JStr(s) => Some(seq(|s|, i requires 0 <= i < |s| => (IndexKey(i), JStr([s[i]]))))
    case JArr(items) => Some(seq(|items|, i requires 0 <= i < |items| => (IndexKey(i), items[i])))
    case JObj(members) => Some(members)
  }

  /** The keys Object.entries gives an array or a string never repeat. */
  lemma IndexKeysDistinct(v: Json, i: nat, j: nat)
    requires v.JArr? || v.JStr?
    requires Entries(v).Some? && i < |Entries(v).value| && j < |Entries(v).value|
    requires Entries(v).value[i].0 == Entries(v).value[j].0
    ensures i == j
  {
    NatToStringInjective(i, j);
  }
}
