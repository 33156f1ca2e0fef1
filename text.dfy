/** The string operations of Python that the modelled code relies on:
    lower/upper casing, substring search (`in`, `find`), `startswith`,
    `endswith`, `strip`, `str(n)`, `join` and `replace`. Casing covers ASCII
    letters only. */
module Text {

  function LowerChar(c: char): char {
    if 'A' <= c <= 'Z' then (c as int + 32) as char else c
  }

  function UpperChar(c: char): char {
    if 'a' <= c <= 'z' then (c as int - 32) as char else c
  }

  /** `s.lower()`: the same length, every character lower-cased. */
  function Lower(s: string): (r: string)
    ensures |r| == |s|
    ensures forall i :: 0 <= i < |s| ==> r[i] == LowerChar(s[i])
  {
    seq(|s|, i requires 0 <= i < |s| => LowerChar(s[i]))
  }

  /** `s.upper()`. */
  function Upper(s: string): (r: string)
    ensures |r| == |s|
    ensures forall i :: 0 <= i < |s| ==> r[i] == UpperChar(s[i])
  {
    seq(|s|, i requires 0 <= i < |s| => UpperChar(s[i]))
  }

  /** Lower-casing twice is lower-casing once. */
  lemma LowerIdempotent(s: string)
    ensures Lower(Lower(s)) == Lower(s)
  {
  }

  /** Lower-casing commutes with taking a suffix. */
  lemma LowerSlice(s: string, k: nat)
    requires k <= |s|
    ensures Lower(s)[k..] == Lower(s[k..])
  {
  }

  /** `t` occurs in `s` starting at index `i`. */
  ghost predicate OccursAt(s: string, t: string, i: int) {
    0 <= i && i + |t| <= |s| && s[i..i + |t|] == t
  }

  /** `s.find(t, k)`: the first index at or after `k` where `t` occurs, or -1. */
  function FindFrom(s: string, t: string, k: nat): (r: int)
    requires k <= |s|
    ensures r == -1 || (k <= r && OccursAt(s, t, r))
    ensures r == -1 ==> forall j :: k <= j <= |s| ==> !OccursAt(s, t, j)
    ensures r != -1 ==> forall j :: k <= j < r ==> !OccursAt(s, t, j)
    decreases |s| - k
  {
    if k + |t| <= |s| && s[k..k + |t|] == t then k
    else if k + |t| >= |s| then
      -1
    else FindFrom(s, t, k + 1)
  }

  /** `s.find(t)`: the smallest index at which `t` occurs in `s`, or -1. */
  function Find(s: string, t: string): (r: int)
    ensures -1 <= r <= |s|
    ensures r >= 0 ==> OccursAt(s, t, r) && forall j :: 0 <= j < r ==> !OccursAt(s, t, j)
    ensures r == -1 <==> forall j :: 0 <= j <= |s| ==> !OccursAt(s, t, j)
  {
    FindFrom(s, t, 0)
  }

  /** `t in s`. */
  function Contains(s: string, t: string): (b: bool)
    ensures b <==> exists j :: 0 <= j <= |s| && OccursAt(s, t, j)
  {
    Find(s, t) >= 0
  }

  /** A string containing a character that `s` lacks does not occur in `s`. */
  lemma AbsentCharExcludes(s: string, t: string, c: char)
    requires c in t && c !in s
    ensures !Contains(s, t)
  {
  }

  predicate StartsWith(s: string, p: string) {
    |p| <= |s| && s[..|p|] == p
  }

  predicate EndsWith(s: string, x: string) {
    |x| <= |s| && s[|s| - |x|..] == x
  }

  /** The whitespace `str.strip()` removes: the characters for which
      `str.isspace` holds. */
  predicate IsSpace(c: char) {
    c == ' ' || '\t' <= c <= '\r' || '\U{1c}' <= c <= '\U{1f}' || c == '\U{85}' || c == '\U{a0}'
    || c == '\U{1680}' || '\U{2000}' <= c <= '\U{200a}' || c == '\U{2028}' || c == '\U{2029}'
    || c == '\U{202f}' || c == '\U{205f}' || c == '\U{3000}'
  }

  function LStrip(s: string): (r: string)
    ensures |r| <= |s| && r == s[|s| - |r|..]
    ensures r == [] || !IsSpace(r[0])
    ensures forall i :: 0 <= i < |s| - |r| ==> IsSpace(s[i])
  {
    if |s| > 0 && IsSpace(s[0]) then LStrip(s[1..]) else s
  }

  function RStrip(s: string): (r: string)
    ensures |r| <= |s| && r == s[..|r|]
    ensures r == [] || !IsSpace(r[|r| - 1])
    ensures forall i :: |r| <= i < |s| ==> IsSpace(s[i])
  {
    if |s| > 0 && IsSpace(s[|s| - 1]) then RStrip(s[..|s| - 1]) else s
  }

  /** Number of whitespace characters `lstrip` removes from the front. */
  function LeadingSpaces(s: string): (k: nat)
    ensures k <= |s|
  {
    |s| - |LStrip(s)|
  }

  /** `s.strip()`. */
  function Strip(s: string): (r: string)
    ensures |r| <= |s|
  {
    RStrip(LStrip(s))
  }

  /** `strip` removes whitespace from both ends and nothing else: the result
      is the slice of `s` after its leading whitespace, neither end of it is
      whitespace, and every character cut off is. */
  lemma StripTrims(s: string)
    ensures var r := Strip(s); var k := LeadingSpaces(s);
            && k + |r| <= |s| && r == s[k..k + |r|]
            && (r == [] || (!IsSpace(r[0]) && !IsSpace(r[|r| - 1])))
            && (forall i :: 0 <= i < k ==> IsSpace(s[i]))
            && (forall i :: k + |r| <= i < |s| ==> IsSpace(s[i]))
  {
    StripIsSlice(s);
    StripEnds(s);
    StripCutsSpace(s);
  }

  lemma StripIsSlice(s: string)
    ensures LeadingSpaces(s) + |Strip(s)| <= |s|
    ensures Strip(s) == s[LeadingSpaces(s)..LeadingSpaces(s) + |Strip(s)|]
  {
    var l := LStrip(s);
    var r := RStrip(l);
    var k := |s| - |l|;
    assert l == s[k..] && r == l[..|r|];
  }

  lemma StripEnds(s: string)
    ensures var r := Strip(s); r == [] || (!IsSpace(r[0]) && !IsSpace(r[|r| - 1]))
  {
    var l := LStrip(s);
    var r := RStrip(l);
    if r != [] {
      assert r[0] == l[0];
    }
  }

  lemma StripCutsSpace(s: string)
    ensures forall i :: 0 <= i < LeadingSpaces(s) ==> IsSpace(s[i])
    ensures forall i :: LeadingSpaces(s) + |Strip(s)| <= i < |s| ==> IsSpace(s[i])
  {
    var l := LStrip(s);
    TrailingCutIsSpace(s, l, |s| - |l|, RStrip(l));
  }

  /** Whitespace cut from the end of a suffix `l == s[k..]` is whitespace
      at the same place, shifted by `k`, in `s`. */
  lemma TrailingCutIsSpace(s: string, l: string, k: nat, r: string)
    requires k <= |s| && l == s[k..] && |r| <= |l|
    requires forall i :: |r| <= i < |l| ==> IsSpace(l[i])
    ensures forall i :: k + |r| <= i < |s| ==> IsSpace(s[i])
  {
    forall i | k + |r| <= i < |s| ensures IsSpace(s[i]) {
      assert s[i] == l[i - k];
    }
  }

  function DigitChar(d: nat): char
    requires d < 10
  {
    ('0' as int + d) as char
  }

  predicate IsDigit(c: char) {
    '0' <= c <= '9'
  }

  /** `str(n)` for a non-negative integer: decimal digits, no leading zero. */
  function NatToString(n: nat): (r: string)
    ensures |r| >= 1
  {
    if n < 10 then [DigitChar(n)] else NatToString(n / 10) + [DigitChar(n % 10)]
  }

  /** The text of a number is all digits, with no leading zero. */
  lemma {:induction false} NatToStringDigits(n: nat)
    ensures forall i :: 0 <= i < |NatToString(n)| ==> IsDigit(NatToString(n)[i])
    ensures |NatToString(n)| > 1 ==> NatToString(n)[0] != '0'
  {
    if n >= 10 {
      NatToStringDigits(n / 10);
      var r := NatToString(n);
      assert r == NatToString(n / 10) + [DigitChar(n % 10)];
      assert r[0] == NatToString(n / 10)[0];
    }
  }

  /** Different numbers print differently. */
  lemma {:induction false} NatToStringInjective(a: nat, b: nat)
    requires NatToString(a) == NatToString(b)
    ensures a == b
    decreases a
  {
    var ra, rb := NatToString(a), NatToString(b);
    if a < 10 && b < 10 {
      assert ra[0] == rb[0];
    } else if a < 10 || b < 10 {
      // one text has a single digit and the other at least two
      assert false;
    } else {
      assert ra[|ra| - 1] == rb[|rb| - 1];
      assert ra[..|ra| - 1] == NatToString(a / 10);
      assert rb[..|rb| - 1] == NatToString(b / 10);
      NatToStringInjective(a / 10, b / 10);
    }
  }

  /** `str(n)` for any integer: a minus sign before the digits of a
      negative number. */
  function IntToString(n: int): (r: string)
    ensures |r| >= 1
    ensures (r[0] == '-') <==> n < 0
  {
    if n < 0 then "-" + NatToString(-n)
    else
      var d := NatToString(n);
      NatToStringDigits(n);
      assert IsDigit(d[0]);
      d
  }

  /** `sep.join(parts)`. */
  function Join(parts: seq<string>, sep: string): (r: string)
    ensures parts == [] ==> r == ""
    ensures |parts| == 1 ==> r == parts[0]
  {
    if |parts| == 0 then ""
    else if |parts| == 1 then parts[0]
    else Join(parts[..|parts| - 1], sep) + sep + parts[|parts| - 1]
  }

  /** `s.replace(a, b)` for single characters. */
  function ReplaceChar(s: string, a: char, b: char): (r: string)
    ensures |r| == |s|
    ensures forall i :: 0 <= i < |s| ==> r[i] == if s[i] == a then b else s[i]
  {
    seq(|s|, i requires 0 <= i < |s| => if s[i] == a then b else s[i])
  }

  /** `c * n` for a one-character string. */
  function Repeat(c: char, n: nat): (r: string)
    ensures |r| == n
    ensures forall i :: 0 <= i < n ==> r[i] == c
  {
    seq(n, _ => c)
  }

  /** Text read from a file opened in text mode with universal newlines:
      every "\r\n" and every lone "\r" becomes "\n". */
  function UniversalNewlines(s: string): (r: string)
    ensures '\r' !in r
    ensures |r| <= |s|
    ensures '\r' !in s ==> r == s
  {
    if |s| == 0 then s
    else if s[0] == '\r' then "\n" + UniversalNewlines(if |s| >= 2 && s[1] == '\n' then s[2..] else s[1..])
    else [s[0]] + UniversalNewlines(s[1..])
  }

  /** `s` without its line-break characters. */
  function Unbroken(s: string): (r: string)
    ensures |r| <= |s|
  {
    if |s| == 0 then s
    else if s[0] == '\r' || s[0] == '\n' then Unbroken(s[1..])
    else [s[0]] + Unbroken(s[1..])
  }

  /** Newline translation only rewrites line breaks: everything else is
      kept, in order. */
  lemma {:induction false} UniversalNewlinesKeepsText(s: string)
    ensures Unbroken(UniversalNewlines(s)) == Unbroken(s)
    decreases |s|
  {
    if |s| > 0 {
      if s[0] == '\r' {
        var rest := if |s| >= 2 && s[1] == '\n' then s[2..] else s[1..];
        UniversalNewlinesKeepsText(rest);
        assert UniversalNewlines(s) == "\n" + UniversalNewlines(rest);
        assert ("\n" + UniversalNewlines(rest))[1..] == UniversalNewlines(rest);
        if |s| >= 2 && s[1] == '\n' {
          assert s[1..][1..] == s[2..];
        }
      } else {
        UniversalNewlinesKeepsText(s[1..]);
        assert ([s[0]] + UniversalNewlines(s[1..]))[1..] == UniversalNewlines(s[1..]);
      }
    }
  }
}
