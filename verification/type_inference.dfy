/** The type inferrer: one sample value to one type annotation of the
    schema language (app/api/infer/route.ts, inferType). */
module TypeInference {
  import opened Text
  import opened Results
  import opened JsonValues

  /** The annotations the inferrer can produce. Ranges carry their bounds so
      that the fixed default bounds are visible in the contracts. */
  datatype TypeAnn =
    | StringType
    | DateType
    | IntRange(lo: nat, hi: nat)
    | DecimalRange(lo: nat, hi: nat)
    | BoolLiteral

  /** The bounds every numeric annotation gets, whatever the sample. */
  const DefaultLo: nat := 0
  const DefaultHi: nat := 1000

  const BoolText: string := "\"true\" | \"false\""

  /** The annotation as it appears after `name: ` in a schema block. */
  function Render(t: TypeAnn): string {
    match t
    case StringType => "string"
    case DateType => "date"
    case IntRange(lo, hi) => "int in " + RangeText(lo, hi)
    case DecimalRange(lo, hi) => "decimal in " + RangeText(lo, hi)
    case BoolLiteral => BoolText
  }

  function RangeText(lo: nat, hi: nat): string {
    NatToString(lo) + ".." + NatToString(hi)
  }

  // ---------------------------------------------------------------------
  // The date test: the regular expression ^\d{4}-\d{2}-\d{2}
  // ---------------------------------------------------------------------

  /** One position of an anchored pattern without repetition: `\d` or a
      literal character. */
  datatype Atom = AnyDigit | Literal(c: char)

  predicate AtomMatches(a: Atom, c: char) {
    match a
    case AnyDigit => IsDigit(c)
    case Literal(l) => c == l
  }

  /** `^\d{4}-\d{2}-\d{2}` written out atom by atom. */
  const DatePattern: seq<Atom> :=
    [AnyDigit, AnyDigit, AnyDigit, AnyDigit, Literal('-'),
     AnyDigit, AnyDigit, Literal('-'), AnyDigit, AnyDigit]

  /** RegExp.prototype.test for an anchored pattern of atoms: the pattern
      matches at the start of `s`; what follows is not looked at. */
  function MatchesPrefix(pattern: seq<Atom>, s: string): bool
    decreases |pattern|
  {
    |pattern| == 0
    || (|s| > 0 && AtomMatches(pattern[0], s[0]) && MatchesPrefix(pattern[1..], s[1..]))
  }

  /** A pattern matches exactly when each atom matches the character at
      its own position. */
  lemma {:induction false} MatchesPrefixPositions(pattern: seq<Atom>, s: string)
    ensures MatchesPrefix(pattern, s)
        <==> |pattern| <= |s| && forall i :: 0 <= i < |pattern| ==> AtomMatches(pattern[i], s[i])
    decreases |pattern|
  {
    if |pattern| > 0 && |s| > 0 {
      MatchesPrefixPositions(pattern[1..], s[1..]);
      if MatchesPrefix(pattern, s) {
        forall i | 0 <= i < |pattern|
          ensures AtomMatches(pattern[i], s[i])
        {
          if i > 0 {
            assert pattern[1..][i - 1] == pattern[i] && s[1..][i - 1] == s[i];
          }
        }
      } else if |pattern| <= |s| && forall i :: 0 <= i < |pattern| ==> AtomMatches(pattern[i], s[i]) {
        assert AtomMatches(pattern[0], s[0]);
        forall i | 0 <= i < |pattern[1..]|
          ensures AtomMatches(pattern[1..][i], s[1..][i])
        {
          assert AtomMatches(pattern[i + 1], s[i + 1]);
        }
        assert false;
      }
    }
  }

  /** Four digits, a dash, two digits, a dash, two digits at the very start. */
  predicate HasDatePrefix(s: string) {
    && |s| >= 10
    && IsDigit(s[0]) && IsDigit(s[1]) && IsDigit(s[2]) && IsDigit(s[3])
    && s[4] == '-'
    && IsDigit(s[5]) && IsDigit(s[6])
    && s[7] == '-'
    && IsDigit(s[8]) && IsDigit(s[9])
  }

  lemma DatePatternMeaning(s: string)
    ensures MatchesPrefix(DatePattern, s) <==> HasDatePrefix(s)
  {
    MatchesPrefixPositions(DatePattern, s);
    DatePositions(s);
  }

  /** The date pattern's atoms, position by position, say HasDatePrefix. */
  lemma DatePositions(s: string)
    ensures (|DatePattern| <= |s| && forall i :: 0 <= i < |DatePattern| ==> AtomMatches(DatePattern[i], s[i]))
        <==> HasDatePrefix(s)
  {
    if HasDatePrefix(s) {
      assert forall i :: 0 <= i < |DatePattern| ==> AtomMatches(DatePattern[i], s[i]);
    }
    if |DatePattern| <= |s| && forall i :: 0 <= i < |DatePattern| ==> AtomMatches(DatePattern[i], s[i]) {
      assert AtomMatches(DatePattern[0], s[0]) && AtomMatches(DatePattern[1], s[1]);
      assert AtomMatches(DatePattern[2], s[2]) && AtomMatches(DatePattern[3], s[3]);
      assert AtomMatches(DatePattern[4], s[4]) && AtomMatches(DatePattern[5], s[5]);
      assert AtomMatches(DatePattern[6], s[6]) && AtomMatches(DatePattern[7], s[7]);
      assert AtomMatches(DatePattern[8], s[8]) && AtomMatches(DatePattern[9], s[9]);
    }
  }

  // ---------------------------------------------------------------------
  // Inference
  // ---------------------------------------------------------------------

  /** inferType: total over every value. A string is a date exactly when it
      starts with a date, a number is an int exactly when it is integral,
      with the same fixed bounds either way; a boolean gives the two-literal
      union, and every other shape falls back to string. */
  function InferType(v: Json): (t: TypeAnn)
    ensures v.JStr? ==> (t == DateType <==> HasDatePrefix(v.s))
    ensures v.JStr? ==> (t == StringType <==> !HasDatePrefix(v.s))
    ensures v.JNum? ==> (t == IntRange(DefaultLo, DefaultHi) <==> IsInteger(v.n))
    ensures v.JNum? ==> (t == DecimalRange(DefaultLo, DefaultHi) <==> !IsInteger(v.n))
    ensures t == BoolLiteral <==> v.JBool?
    ensures v.JNull? || v.JArr? || v.JObj? ==> t == StringType
  {
    match v
    case JStr(s) =>
      DatePatternMeaning(s);
      if MatchesPrefix(DatePattern, s) then DateType else StringType
    case JNum(n) =>
      if IsInteger(n) then IntRange(DefaultLo, DefaultHi) else DecimalRange(DefaultLo, DefaultHi)
    case JBool(_) => BoolLiteral
    case _ => StringType
  }

  /** The bounds of an inferred numeric annotation never depend on the
      sample: two numbers of the same kind get the same annotation. */
  lemma BoundsIgnoreValue(x: real, y: real)
    requires IsInteger(x) <==> IsInteger(y)
    ensures InferType(JNum(x)) == InferType(JNum(y))
    ensures InferType(JNum(x)).lo == 0 && InferType(JNum(x)).hi == 1000
  {
  }

  /** The exact texts the inferrer emits. */
  lemma RenderedDefaults()
    ensures Render(IntRange(DefaultLo, DefaultHi)) == "int in 0..1000"
    ensures Render(DecimalRange(DefaultLo, DefaultHi)) == "decimal in 0..1000"
    ensures Render(BoolLiteral) == "\"true\" | \"false\""
  {
    assert NatToString(1) == "1";
    assert NatToString(10) == "10";
    assert NatToString(100) == "100";
    assert NatToString(1000) == "1000";
  }

  // ---------------------------------------------------------------------
  // Reading an annotation back
  // ---------------------------------------------------------------------

  /** Index of the first occurrence of `c` in `s`, or |s| when absent. */
  function FirstIndex(s: string, c: char): (i: nat)
    ensures i <= |s|
    ensures i < |s| ==> s[i] == c
    ensures forall k :: 0 <= k < i ==> s[k] != c
    decreases |s|
  {
    if |s| == 0 then 0 else if s[0] == c then 0 else 1 + FirstIndex(s[1..], c)
  }

  /** `lo..hi` with both bounds decimal numerals. */
  function ParseRange(s: string): Option<(nat, nat)> {
    var i := FirstIndex(s, '.');
    if 0 < i && i + 2 < |s| && s[i + 1] == '.' && AllDigits(s[..i]) && AllDigits(s[i + 2..]) then
      Some((DigitsValue(s[..i]), DigitsValue(s[i + 2..])))
    else
      None
  }

  /** Reads an annotation in the grammar of the schema language. */
  function ParseType(s: string): Option<TypeAnn> {
    if s == "string" then Some(StringType)
    else if s == "date" then Some(DateType)
    else if s == BoolText then Some(BoolLiteral)
    else if |s| >= 7 && s[..7] == "int in " then
      match ParseRange(s[7..])
      case Some((lo, hi)) => Some(IntRange(lo, hi))
      case None => None
    else if |s| >= 11 && s[..11] == "decimal in " then
      match ParseRange(s[11..])
      case Some((lo, hi)) => Some(DecimalRange(lo, hi))
      case None => None
    else None
  }

  lemma ParseRangeText(lo: nat, hi: nat)
    ensures ParseRange(RangeText(lo, hi)) == Some((lo, hi))
  {
    var a, b := NatToString(lo), NatToString(hi);
    var s := RangeText(lo, hi);
    assert s[..|a|] == a && s[|a|] == '.' && s[|a| + 1] == '.';
    assert s[|a| + 2..] == b;
    forall k | 0 <= k < |a|
      ensures s[k] != '.'
    {
      assert s[k] == a[k] && IsDigit(a[k]);
    }
    assert FirstIndex(s, '.') == |a|;
  }

  /** Every emitted annotation reads back as itself. */
  lemma ParseRender(t: TypeAnn)
    ensures ParseType(Render(t)) == Some(t)
  {
    match t
    case IntRange(lo, hi) =>
      var s := Render(t);
      assert s[..7] == "int in " && s[7..] == RangeText(lo, hi);
      ParseRangeText(lo, hi);
    case DecimalRange(lo, hi) =>
      var s := Render(t);
      assert s[..7] != "int in " by { assert s[0] == 'd'; }
      assert s[..11] == "decimal in " && s[11..] == RangeText(lo, hi);
      ParseRangeText(lo, hi);
    case _ =>
  }

  /** Distinct annotations are written differently. */
  lemma RenderInjective(t: TypeAnn, u: TypeAnn)
    requires Render(t) == Render(u)
    ensures t == u
  {
    ParseRender(t);
    ParseRender(u);
  }
}
