/** String operations the source relies on through Python built-ins:
    `str(n)` / f-strings of integers, `in` on strings, `str.replace`,
    `str.strip`, `str.lower` and `str.rsplit(sep, 1)`. */
module Text {

  import opened Common

  // ---------------------------------------------------------------------------
  // Decimal text of natural numbers (`str(n)`, `f'{n}'`) and its parser.

  function DigitChar(d: nat): (c: char)
    requires d < 10
    ensures '0' <= c <= '9'
  {
    ['0', '1', '2', '3', '4', '5', '6', '7', '8', '9'][d]
  }

  predicate IsDigit(c: char)
  {
    '0' <= c <= '9'
  }

  function DigitValue(c: char): (d: nat)
    requires IsDigit(c)
    ensures d < 10
  {
    (c as int - '0' as int) as nat
  }

  lemma DigitRoundTrip(d: nat)
    requires d < 10
    ensures DigitValue(DigitChar(d)) == d
  {
  }

  /** The decimal representation of `n`, without leading zeros. */
  function NatToString(n: nat): (s: string)
    ensures |s| >= 1
    ensures forall i :: 0 <= i < |s| ==> IsDigit(s[i])
    decreases n
  {
    if n < 10 then [DigitChar(n)] else NatToString(n / 10) + [DigitChar(n % 10)]
  }

  /** The number denoted by a string of digits. */
  function DigitsValue(s: string): nat
    requires forall i :: 0 <= i < |s| ==> IsDigit(s[i])
  {
    if s == [] then 0 else DigitsValue(s[..|s| - 1]) * 10 + DigitValue(s[|s| - 1])
  }

  /** Parses a non-empty string of decimal digits. */
  function ParseNat(s: string): (r: Option<nat>)
    ensures r.Some? <==> s != [] && forall i :: 0 <= i < |s| ==> IsDigit(s[i])
  {
    if s != [] && forall i :: 0 <= i < |s| ==> IsDigit(s[i]) then Some(DigitsValue(s)) else None
  }

  /** Parsing the decimal text of a number gives the number back. */
  lemma {:induction false} ParseNatToString(n: nat)
    ensures ParseNat(NatToString(n)) == Some(n)
    decreases n
  {
    var s := NatToString(n);
    if n < 10 {
      DigitRoundTrip(n);
      assert s[..0] == [];
    } else {
      ParseNatToString(n / 10);
      var p := NatToString(n / 10);
      assert s[..|s| - 1] == p;
      DigitRoundTrip(n % 10);
      assert DigitsValue(s) == DigitsValue(p) * 10 + n % 10;
    }
  }

  /** Distinct numbers have distinct decimal texts. */
  lemma NatToStringInjective(a: nat, b: nat)
    ensures NatToString(a) == NatToString(b) <==> a == b
  {
    if NatToString(a) == NatToString(b) {
      ParseNatToString(a);
      ParseNatToString(b);
    }
  }

  // ---------------------------------------------------------------------------
  // Substrings (`needle in haystack`).

  predicate HasPrefix(s: string, p: string)
  {
    |p| <= |s| && s[..|p|] == p
  }

  /** `needle` occurs in `haystack` starting at index `i`. */
  predicate OccursAt(haystack: string, needle: string, i: int)
  {
    0 <= i <= |haystack| - |needle| && haystack[i..i + |needle|] == needle
  }

  /** Python's `needle in haystack` for strings. */
  predicate Contains(haystack: string, needle: string)
  {
    exists i | 0 <= i <= |haystack| - |needle| :: OccursAt(haystack, needle, i)
  }

  // ---------------------------------------------------------------------------
  // `s.replace(pat, rep)`: every non-overlapping occurrence, scanning left to right.

  function ReplaceAll(s: string, pat: string, rep: string): string
    requires pat != []
    decreases |s|
  {
    if |s| < |pat| then s
    else if s[..|pat|] == pat then rep + ReplaceAll(s[|pat|..], pat, rep)
    else [s[0]] + ReplaceAll(s[1..], pat, rep)
  }

  /** Replacing leaves a string untouched when its characters cannot start a match. */
  lemma {:induction false} ReplaceAllNoMatch(s: string, pat: string, rep: string)
    requires pat != []
    requires forall i :: 0 <= i < |s| ==> s[i] != pat[0]
    ensures ReplaceAll(s, pat, rep) == s
    decreases |s|
  {
    if |s| >= |pat| {
      assert s[..|pat|][0] == s[0];
      ReplaceAllNoMatch(s[1..], pat, rep);
      assert [s[0]] + s[1..] == s;
    }
  }

  /** A prefix that cannot start a match passes through unchanged. */
  lemma {:induction false} ReplaceAllPrefix(a: string, b: string, pat: string, rep: string)
    requires pat != []
    requires forall i :: 0 <= i < |a| ==> a[i] != pat[0]
    ensures ReplaceAll(a + b, pat, rep) == a + ReplaceAll(b, pat, rep)
    decreases |a|
  {
    if a != [] {
      var s := a + b;
      if |s| >= |pat| {
        assert s[..|pat|][0] == a[0];
        ReplaceAllPrefix(a[1..], b, pat, rep);
        assert s[1..] == a[1..] + b;
        assert [a[0]] + a[1..] == a;
      }
    } else {
      assert a + b == b;
    }
  }

  // ---------------------------------------------------------------------------
  // `s.strip()`: Python strips the characters `str.isspace` accepts.

  /** Python's whitespace: the ASCII controls TAB to CR and FS to US, space,
      NEL, no-break space, and the Unicode space and line separators. */
  predicate IsSpace(c: char)
  {
    c == ' ' || ('\t' <= c <= '\r') || ('\U{1C}' <= c <= '\U{1F}') || c == '\U{85}' || c == '\U{A0}'
    || c == '\U{1680}' || ('\U{2000}' <= c <= '\U{200A}') || c == '\U{2028}' || c == '\U{2029}'
    || c == '\U{202F}' || c == '\U{205F}' || c == '\U{3000}'
  }

  function TrimStart(s: string): (r: string)
    ensures |r| <= |s| && r == s[|s| - |r|..]
    ensures r != [] ==> !IsSpace(r[0])
    ensures (s == [] || !IsSpace(s[0])) ==> r == s
    decreases |s|
  {
    if s != [] && IsSpace(s[0]) then TrimStart(s[1..]) else s
  }

  function TrimEnd(s: string): (r: string)
    ensures |r| <= |s| && r == s[..|r|]
    ensures r != [] ==> !IsSpace(r[|r| - 1])
    ensures (s == [] || !IsSpace(s[|s| - 1])) ==> r == s
    decreases |s|
  {
    if s != [] && IsSpace(s[|s| - 1]) then TrimEnd(s[..|s| - 1]) else s
  }

  /** `s.strip()`. */
  function Trim(s: string): (r: string)
    ensures r != [] ==> !IsSpace(r[0]) && !IsSpace(r[|r| - 1])
  {
    TrimEnd(TrimStart(s))
  }

  /** A string with no surrounding whitespace is its own strip. */
  lemma TrimIdentity(s: string)
    requires s == [] || (!IsSpace(s[0]) && !IsSpace(s[|s| - 1]))
    ensures Trim(s) == s
  {
  }

  // ---------------------------------------------------------------------------
  // `s.lower()`.

  /** Lower-casing of ASCII letters; every other character is left as it is. */
  function LowerChar(c: char): char
  {
    if 'A' <= c <= 'Z' then (c as int + 32) as char else c
  }

  function ToLower(s: string): (r: string)
    ensures |r| == |s|
    ensures forall i :: 0 <= i < |s| ==> r[i] == LowerChar(s[i])
  {
    seq(|s|, i requires 0 <= i < |s| => LowerChar(s[i]))
  }

  /** A needle without ASCII letters is found in a string exactly when it is
      found in the lower-cased string: lower-casing changes letters only. */
  lemma ContainsLowerNoLetters(s: string, needle: string)
    requires forall j :: 0 <= j < |needle| ==> !('A' <= needle[j] <= 'Z') && !('a' <= needle[j] <= 'z')
    ensures Contains(ToLower(s), needle) <==> Contains(s, needle)
  {
    var l := ToLower(s);
    if Contains(s, needle) {
      var i :| OccursAt(s, needle, i);
      OccurrenceSurvivesLower(s, needle, i);
      assert OccursAt(l, needle, i);
    }
    if Contains(l, needle) {
      var i :| OccursAt(l, needle, i);
      OccurrenceComesFromOriginal(s, needle, i);
      assert OccursAt(s, needle, i);
    }
  }

  lemma OccurrenceSurvivesLower(s: string, needle: string, i: int)
    requires forall j :: 0 <= j < |needle| ==> !('A' <= needle[j] <= 'Z')
    requires OccursAt(s, needle, i)
    ensures OccursAt(ToLower(s), needle, i)
  {
    var l := ToLower(s);
    forall j | 0 <= j < |needle| ensures l[i + j] == needle[j] {
      assert s[i + j] == s[i..i + |needle|][j];
    }
    assert l[i..i + |needle|] == needle;
  }

  lemma OccurrenceComesFromOriginal(s: string, needle: string, i: int)
    requires forall j :: 0 <= j < |needle| ==> !('a' <= needle[j] <= 'z')
    requires OccursAt(ToLower(s), needle, i)
    ensures OccursAt(s, needle, i)
  {
    var l := ToLower(s);
    forall j | 0 <= j < |needle| ensures s[i + j] == needle[j] {
      assert l[i + j] == l[i..i + |needle|][j];
    }
    assert s[i..i + |needle|] == needle;
  }

  // ---------------------------------------------------------------------------
  // `s.rsplit(sep, 1)`.

  /** The index of the last occurrence of `c` in `s`. */
  function LastIndexOf(s: string, c: char): (r: Option<nat>)
    ensures r.None? <==> (forall i :: 0 <= i < |s| ==> s[i] != c)
    ensures r.Some? ==> r.value < |s| && s[r.value] == c
    ensures r.Some? ==> forall i :: r.value < i < |s| ==> s[i] != c
    decreases |s|
  {
    if s == [] then None
    else if s[|s| - 1] == c then Some(|s| - 1)
    else LastIndexOf(s[..|s| - 1], c)
  }

  /** `s.rsplit(c, 1)`: one part when `c` does not occur, else the text before
      and after the last `c`. */
  function RSplitOnce(s: string, c: char): (parts: seq<string>)
    ensures 1 <= |parts| <= 2
  {
    match LastIndexOf(s, c)
    case None => [s]
    case Some(i) => [s[..i], s[i + 1..]]
  }

  /** Splitting at the last separator and joining again gives the input; the
      right part never contains the separator; with no separator, the input
      comes back whole. */
  lemma RSplitOnceJoin(s: string, c: char)
    ensures |RSplitOnce(s, c)| == 2 <==> exists i :: 0 <= i < |s| && s[i] == c
    ensures |RSplitOnce(s, c)| == 2 ==>
      RSplitOnce(s, c)[0] + [c] + RSplitOnce(s, c)[1] == s
      && forall i :: 0 <= i < |RSplitOnce(s, c)[1]| ==> RSplitOnce(s, c)[1][i] != c
    ensures |RSplitOnce(s, c)| == 1 ==> RSplitOnce(s, c) == [s]
  {
    match LastIndexOf(s, c)
    case None =>
    case Some(i) =>
      assert s[..i] + [c] + s[i + 1..] == s;
      var right := s[i + 1..];
      forall j | 0 <= j < |right| ensures right[j] != c {
        assert right[j] == s[i + 1 + j];
      }
  }
}
