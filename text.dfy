/** String handling shared by the scripts: the `[^\d.\-eE]` character cleaner,
    `str.strip()`, `str.lower()`, `str.split()` and `int(...)` on a token, and the
    two ways the scripts coerce cleaned text to a number (`astype(float)`, which
    raises, and `pd.to_numeric(errors="coerce")`, which gives NaN). */
module Text {
  import opened Common

  /** The characters the pattern `[^\d.\-eE]` keeps (ASCII digits only). */
  predicate IsNumericChar(c: char) {
    ('0' <= c <= '9') || c == '.' || c == '-' || c == 'e' || c == 'E'
  }

  predicate AllNumericChars(s: string) {
    forall i :: 0 <= i < |s| ==> IsNumericChar(s[i])
  }

  /** `str.replace(r"[^\d.\-eE]", "", regex=True)`: deletes every other character. */
  function StripNonNumeric(s: string): (r: string)
    ensures |r| <= |s|
    ensures AllNumericChars(r)
  {
    if |s| == 0 then []
    else (if IsNumericChar(s[0]) then [s[0]] else []) + StripNonNumeric(s[1..])
  }

  ghost predicate IsSubsequence(a: string, b: string)
    decreases |b|
  {
    a == [] || (b != [] && ((a[0] == b[0] && IsSubsequence(a[1..], b[1..])) || IsSubsequence(a, b[1..])))
  }

  /** The cleaner keeps characters in their order and never invents one. */
  lemma {:induction false} StripIsSubsequence(s: string)
    ensures IsSubsequence(StripNonNumeric(s), s)
    decreases |s|
  {
    if s != [] {
      StripIsSubsequence(s[1..]);
      var r := StripNonNumeric(s);
      if IsNumericChar(s[0]) {
        assert r[0] == s[0] && r[1..] == StripNonNumeric(s[1..]);
      } else {
        assert r == StripNonNumeric(s[1..]);
      }
    }
  }

  /** Exactly the kept characters survive, each as often as in the input. */
  lemma {:induction false} StripCounts(s: string, c: char)
    ensures multiset(StripNonNumeric(s))[c] == if IsNumericChar(c) then multiset(s)[c] else 0
    decreases |s|
  {
    if s != [] {
      StripCounts(s[1..], c);
      assert s == [s[0]] + s[1..];
      assert multiset(s) == multiset{s[0]} + multiset(s[1..]);
      var head: string := if IsNumericChar(s[0]) then [s[0]] else [];
      assert multiset(StripNonNumeric(s)) == multiset(head) + multiset(StripNonNumeric(s[1..]));
    }
  }

  /** A string made only of kept characters passes through unchanged. */
  lemma {:induction false} StripKeepsNumeric(s: string)
    requires AllNumericChars(s)
    ensures StripNonNumeric(s) == s
    decreases |s|
  {
    if s != [] {
      assert AllNumericChars(s[1..]) by {
        forall i | 0 <= i < |s[1..]| ensures IsNumericChar(s[1..][i]) {
          assert s[1..][i] == s[i + 1];
        }
      }
      StripKeepsNumeric(s[1..]);
    }
  }

  lemma StripIdempotent(s: string)
    ensures StripNonNumeric(StripNonNumeric(s)) == StripNonNumeric(s)
  {
    StripKeepsNumeric(StripNonNumeric(s));
  }

  /** The cleaned text of one cell, coerced the way `_to_float_series` does it:
      an empty leftover becomes NaN (`.replace({"": None})`), and anything else
      goes through `astype(float)`, which raises on text it cannot parse. */
  function ToFloatCell(parse: string -> Option<real>, s: string): (r: Result<Option<real>>)
    ensures r == Ok(None) <==> StripNonNumeric(s) == []
    ensures r.Err? <==> StripNonNumeric(s) != [] && parse(StripNonNumeric(s)).None?
    ensures r.Ok? && r.value.Some? ==> r.value == parse(StripNonNumeric(s))
  {
    var t := StripNonNumeric(s);
    if |t| == 0 then Ok(None)
    else match parse(t)
      case Some(v) => Ok(Some(v))
      case None => Err(ValueError)
  }

  /** `_to_float_series` over a column: every cell coerced, or the first failure raised. */
  function ToFloatSeries(parse: string -> Option<real>, col: seq<string>): (r: Result<seq<Option<real>>>)
    ensures r.Ok? <==> forall i :: 0 <= i < |col| ==> ToFloatCell(parse, col[i]).Ok?
    ensures r.Ok? ==> |r.value| == |col| && forall i :: 0 <= i < |col| ==> r.value[i] == ToFloatCell(parse, col[i]).value
  {
    if |col| == 0 then Ok([])
    else match ToFloatCell(parse, col[0])
      case Err(e) => Err(e)
      case Ok(v) =>
        match ToFloatSeries(parse, col[1..])
        case Err(e) =>
          assert !ToFloatCell(parse, col[1..][0]).Ok? || exists i :: 0 <= i < |col[1..]| && !ToFloatCell(parse, col[1..][i]).Ok?;
          Err(e)
        case Ok(vs) =>
          assert forall i :: 1 <= i < |col| ==> col[i] == col[1..][i - 1];
          Ok([v] + vs)
  }

  /** `pd.to_numeric(cleaned, errors="coerce")`: text it cannot parse, and the
      empty string, become missing instead of raising. */
  function CoerceStripped(parse: string -> Option<real>, s: string): (r: Option<real>)
    ensures StripNonNumeric(s) == [] ==> r.None?
    ensures StripNonNumeric(s) != [] ==> r == parse(StripNonNumeric(s))
  {
    var t := StripNonNumeric(s);
    if |t| == 0 then None else parse(t)
  }

  /** `pd.to_numeric(raw, errors="coerce")` on a cell that was not cleaned first.
      `parse` yields a finite real or nothing, so text that pandas reads as an
      infinity ("inf", "1e999") is outside this model. */
  function CoerceRaw(parse: string -> Option<real>, s: string): (r: Option<real>)
    ensures s == [] ==> r.None?
    ensures s != [] ==> r == parse(s)
  {
    if |s| == 0 then None else parse(s)
  }

  /** The characters `str.isspace()` accepts, which `str.strip()` and
      `str.split()` remove: the ASCII controls 9-13 and 28-31, the space,
      NEL, no-break space, Ogham space mark, the spaces U+2000-U+200A, the
      line and paragraph separators, the narrow no-break and medium
      mathematical spaces and the ideographic space. */
  predicate IsSpace(c: char) {
    var u := c as int;
    (9 <= u <= 13) || (28 <= u <= 32) || u == 0x85 || u == 0xA0 || u == 0x1680
    || (0x2000 <= u <= 0x200A) || u == 0x2028 || u == 0x2029 || u == 0x202F
    || u == 0x205F || u == 0x3000
  }

  function TrimLeft(s: string): (r: string)
    ensures |r| <= |s| && r == s[|s| - |r|..]
    ensures r != [] ==> !IsSpace(r[0])
    ensures forall i :: 0 <= i < |s| - |r| ==> IsSpace(s[i])
  {
    if s != [] && IsSpace(s[0]) then TrimLeft(s[1..]) else s
  }

  function TrimRight(s: string): (r: string)
    ensures |r| <= |s| && r == s[..|r|]
    ensures r != [] ==> !IsSpace(r[|r| - 1])
    ensures forall i :: |r| <= i < |s| ==> IsSpace(s[i])
  {
    if s != [] && IsSpace(s[|s| - 1]) then TrimRight(s[..|s| - 1]) else s
  }

  /** `str.strip()`: drops leading and trailing whitespace, nothing else. */
  function Trim(s: string): (r: string)
    ensures r != [] ==> !IsSpace(r[0]) && !IsSpace(r[|r| - 1])
    ensures exists i, j ::
              && 0 <= i <= j <= |s| && r == s[i..j]
              && (forall k :: 0 <= k < i ==> IsSpace(s[k]))
              && (forall k :: j <= k < |s| ==> IsSpace(s[k]))
  {
    var l := TrimLeft(s);
    var r := TrimRight(l);
    var i := |s| - |l|;
    assert r == s[i..i + |r|];
    assert forall k :: i + |r| <= k < |s| ==> s[k] == l[k - i];
    r
  }

  /** A string that neither starts nor ends with whitespace is its own trim. */
  lemma TrimNoSpace(s: string)
    requires s == [] || (!IsSpace(s[0]) && !IsSpace(s[|s| - 1]))
    ensures Trim(s) == s
  {
  }

  lemma TrimIdempotent(s: string)
    ensures Trim(Trim(s)) == Trim(s)
  {
    TrimNoSpace(Trim(s));
  }

  /** `str.lower()` on ASCII letters. */
  function LowerChar(c: char): (r: char)
    ensures 'A' <= c <= 'Z' ==> r as int == c as int + 32
    ensures !('A' <= c <= 'Z') ==> r == c
  {
    if 'A' <= c <= 'Z' then (c as int + 32) as char else c
  }

  function Lower(s: string): (r: string)
    ensures |r| == |s| && forall i :: 0 <= i < |s| ==> r[i] == LowerChar(s[i])
  {
    if |s| == 0 then [] else [LowerChar(s[0])] + Lower(s[1..])
  }

  /** The leading run of non-space characters. */
  function LeadingWord(s: string): (w: string)
    ensures |w| <= |s| && w == s[..|w|]
    ensures forall i :: 0 <= i < |w| ==> !IsSpace(w[i])
    ensures |w| < |s| ==> IsSpace(s[|w|])
  {
    if s == [] || IsSpace(s[0]) then [] else [s[0]] + LeadingWord(s[1..])
  }

  /** `str.split()` with no separator: the maximal runs of non-space characters. */
  function Words(s: string): (ws: seq<string>)
    decreases |s|
  {
    if |s| == 0 then []
    else if IsSpace(s[0]) then Words(s[1..])
    else
      var w := LeadingWord(s);
      [w] + Words(s[|w|..])
  }

  predicate NoSpace(s: string) {
    forall i :: 0 <= i < |s| ==> !IsSpace(s[i])
  }

  lemma {:induction false} LeadingWordWhole(s: string, rest: string)
    requires NoSpace(s)
    requires rest == [] || IsSpace(rest[0])
    ensures LeadingWord(s + rest) == s
    decreases |s|
  {
    if s != [] {
      assert (s + rest)[1..] == s[1..] + rest;
      assert NoSpace(s[1..]) by {
        forall i | 0 <= i < |s[1..]| ensures !IsSpace(s[1..][i]) {
          assert s[1..][i] == s[i + 1];
        }
      }
      LeadingWordWhole(s[1..], rest);
    }
  }

  /** A non-empty space-free string is one word. */
  lemma WordsOfWord(s: string)
    requires s != [] && NoSpace(s)
    ensures Words(s) == [s]
  {
    LeadingWordWhole(s, []);
    assert s + [] == s;
    assert s[|s|..] == [];
  }

  function DigitValue(c: char): (d: nat)
    requires '0' <= c <= '9'
    ensures d < 10
  {
    c as int - 48
  }

  predicate AllDigits(s: string) {
    forall i :: 0 <= i < |s| ==> '0' <= s[i] <= '9'
  }

  function DigitsValue(s: string): (n: nat)
    requires AllDigits(s)
  {
    if |s| == 0 then 0 else DigitsValue(s[..|s| - 1]) * 10 + DigitValue(s[|s| - 1])
  }

  /** `int(token)` for a token without spaces: an optional sign then decimal
      digits; anything else raises `ValueError`. */
  function ParseInt(t: string): (r: Result<int>)
    ensures t != [] && AllDigits(t) ==> r == Ok(DigitsValue(t))
    ensures t == [] ==> r.Err?
  {
    if t != [] && AllDigits(t) then Ok(DigitsValue(t))
    else if |t| >= 2 && (t[0] == '-' || t[0] == '+') && AllDigits(t[1..]) then
      var magnitude: int := DigitsValue(t[1..]);
      Ok(if t[0] == '-' then -magnitude else magnitude)
    else Err(ValueError)
  }

  /** Rendering a count in decimal and reading it back gives the count. */
  lemma {:induction false} DigitsRoundTrip(n: nat)
    ensures DigitsValue(NatToString(n)) == n
  {
    if n >= 10 {
      var s := NatToString(n);
      assert s[..|s| - 1] == NatToString(n / 10);
      DigitsRoundTrip(n / 10);
    }
  }

  lemma ParseIntRoundTrip(n: nat)
    ensures ParseInt(NatToString(n)) == Ok(n)
  {
    DigitsRoundTrip(n);
  }
}
