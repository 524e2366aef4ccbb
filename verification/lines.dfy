/** How the comma-separated blocks of the output fall into lines: joining
    with ",\n" is joining with "\n" after a comma is put on every line but
    the last. */
module Lines {
  import opened Text

  predicate NewlineFree(s: string) {
    '\n' !in s
  }

  lemma NewlineFreeConcat(a: string, b: string)
    requires NewlineFree(a) && NewlineFree(b)
    ensures NewlineFree(a + b)
  {
    forall k | 0 <= k < |a + b|
      ensures (a + b)[k] != '\n'
    {
      if k < |a| {
        assert (a + b)[k] == a[k];
      } else {
        assert (a + b)[k] == b[k - |a|];
      }
    }
  }

  lemma NewlineFreeParts(a: string, b: string)
    requires NewlineFree(a + b)
    ensures NewlineFree(a) && NewlineFree(b)
  {
    forall k | 0 <= k < |a|
      ensures a[k] != '\n'
    {
      assert (a + b)[k] == a[k];
    }
    forall k | 0 <= k < |b|
      ensures b[k] != '\n'
    {
      assert (a + b)[|a| + k] == b[k];
    }
  }

  /** Trimming only cuts characters away. */
  lemma TrimNewlineFree(s: string)
    requires NewlineFree(s)
    ensures NewlineFree(Trim(s))
  {
    var t := TrimStart(s);
    var r := TrimEnd(t);
    forall k | 0 <= k < |r|
      ensures r[k] != '\n'
    {
      assert r[k] == t[k];
      assert t[k] == s[|s| - |t| + k];
    }
  }

  predicate AllNewlineFree(xs: seq<string>) {
    forall i :: 0 <= i < |xs| ==> NewlineFree(xs[i])
  }

  lemma AllNewlineFreeAppend(xs: seq<string>, ys: seq<string>)
    requires AllNewlineFree(xs) && AllNewlineFree(ys)
    ensures AllNewlineFree(xs + ys)
  {
    forall i | 0 <= i < |xs + ys|
      ensures NewlineFree((xs + ys)[i])
    {
      if i >= |xs| {
        assert (xs + ys)[i] == ys[i - |xs|];
      }
    }
  }

  /** The pieces of a text without line feeds have none either. */
  lemma {:induction false} JoinPartsNewlineFree(sep: string, xs: seq<string>)
    requires NewlineFree(Join(sep, xs))
    ensures AllNewlineFree(xs)
    decreases |xs|
  {
    if |xs| > 1 {
      NewlineFreeParts(xs[0] + sep, Join(sep, xs[1..]));
      NewlineFreeParts(xs[0], sep);
      JoinPartsNewlineFree(sep, xs[1..]);
      forall i | 1 <= i < |xs|
        ensures NewlineFree(xs[i])
      {
        assert xs[i] == xs[1..][i - 1];
      }
    }
  }

  /** Every element but the last with a trailing comma. */
  function CommaLines(xs: seq<string>): (ys: seq<string>)
    ensures |ys| == |xs|
    ensures forall i :: 0 <= i < |xs| - 1 ==> ys[i] == xs[i] + ","
    ensures |xs| > 0 ==> ys[|xs| - 1] == xs[|xs| - 1]
    decreases |xs|
  {
    if |xs| <= 1 then xs else [xs[0] + ","] + CommaLines(xs[1..])
  }

  /** The lines of a ",\n"-joined body: one per element, or a single empty
      line when there are no elements. */
  function BodyLines(xs: seq<string>): seq<string> {
    if |xs| == 0 then [""] else CommaLines(xs)
  }

  lemma {:induction false} CommaJoin(xs: seq<string>)
    ensures Join(",\n", xs) == Join("\n", BodyLines(xs))
    decreases |xs|
  {
    if |xs| > 1 {
      CommaJoin(xs[1..]);
      JoinCons("\n", xs[0] + ",", CommaLines(xs[1..]));
      assert xs[0] + ",\n" + Join(",\n", xs[1..]) == (xs[0] + ",") + "\n" + Join("\n", CommaLines(xs[1..]));
    }
  }

  /** Putting a comma on lines keeps them free of newlines. */
  lemma BodyLinesNewlineFree(xs: seq<string>)
    requires AllNewlineFree(xs)
    ensures AllNewlineFree(BodyLines(xs))
  {
    if |xs| > 0 {
      forall i | 0 <= i < |xs| - 1
        ensures NewlineFree(xs[i] + ",")
      {
        assert NewlineFree(xs[i]);
      }
    }
  }

  /** "head\n" + body + "\n" + last, read as lines. */
  lemma Framed(head: string, xs: seq<string>, last: string)
    ensures head + "\n" + Join(",\n", xs) + "\n" + last
         == Join("\n", [head] + BodyLines(xs) + [last])
  {
    CommaJoin(xs);
    var b := BodyLines(xs);
    JoinAppend("\n", [head] + b, [last]);
    JoinCons("\n", head, b);
  }
}
