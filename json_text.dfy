/** The JSON text `json.dump` and `json.dumps` write with `indent=2` and
    their default `ensure_ascii`: string literals with every character
    outside printable ASCII escaped, and objects laid out one member per
    line. A reader for string literals shows that the escaping loses
    nothing. */
module JsonText {
  import opened Wrappers
  import opened Text

  /** The characters written unescaped: space to tilde. */
  predicate Printable(c: char) {
    ' ' <= c <= '~'
  }

  /** The lower-case hexadecimal digit for `d`. */
  function HexDigit(d: nat): (c: char)
    requires d < 16
    ensures Printable(c)
  {
    if d < 10 then ('0' as int + d) as char else ('a' as int + d - 10) as char
  }

  /** The value of a hexadecimal digit of either case. */
  function HexValue(c: char): Option<nat> {
    if '0' <= c <= '9' then Some(c as int - '0' as int)
    else if 'a' <= c <= 'f' then Some(c as int - 'a' as int + 10)
    else if 'A' <= c <= 'F' then Some(c as int - 'A' as int + 10)
    else None
  }

  /** `'{0:04x}'.format(n)`: the four hexadecimal digits of `n`, most
      significant first. */
  function Hex4(n: nat): (r: string)
    requires n < 0x10000
    ensures |r| == 4
    ensures forall i :: 0 <= i < 4 ==> Printable(r[i])
  {
    var d3, m1 := n % 16, n / 16;
    var d2, m2 := m1 % 16, m1 / 16;
    [HexDigit(m2 / 16), HexDigit(m2 % 16), HexDigit(d2), HexDigit(d3)]
  }

  /** Four hexadecimal digits read as a number. */
  function ParseHex4(t: string): (r: Option<nat>)
    requires |t| == 4
    ensures r.Some? ==> r.value < 0x10000
  {
    var a, b, c, d := HexValue(t[0]), HexValue(t[1]), HexValue(t[2]), HexValue(t[3]);
    if a.Some? && b.Some? && c.Some? && d.Some? then
      Some(((a.value * 16 + b.value) * 16 + c.value) * 16 + d.value)
    else None
  }

  lemma HexDigitValue(d: nat)
    requires d < 16
    ensures HexValue(HexDigit(d)) == Some(d)
  {
  }

  /** Reading back four written digits gives the number written. */
  lemma Hex4RoundTrip(n: nat)
    requires n < 0x10000
    ensures ParseHex4(Hex4(n)) == Some(n)
  {
    var d3, m1 := n % 16, n / 16;
    var d2, m2 := m1 % 16, m1 / 16;
    assert n == m1 * 16 + d3 && m1 == m2 * 16 + d2 && m2 == (m2 / 16) * 16 + m2 % 16;
    HexDigitValue(m2 / 16);
    HexDigitValue(m2 % 16);
    HexDigitValue(d2);
    HexDigitValue(d3);
  }

  const BACKSPACE: char := 8 as char
  const FORM_FEED: char := 12 as char

  /** The escape of one character: the two-character escapes for the
      quote, the backslash and the five named controls, the character
      itself when printable, otherwise `\uXXXX`, as a surrogate pair
      beyond the Basic Multilingual Plane. */
  function EscapeChar(c: char): (r: string)
    ensures |r| >= 1
    ensures forall i :: 0 <= i < |r| ==> Printable(r[i])
    ensures r[0] == '\\' || (r == [c] && c != '"')
  {
    if c == '"' then "\\\""
    else if c == '\\' then "\\\\"
    else if c == '\n' then "\\n"
    else if c == '\r' then "\\r"
    else if c == '\t' then "\\t"
    else if c == BACKSPACE then "\\b"
    else if c == FORM_FEED then "\\f"
    else if Printable(c) then [c]
    else if c as int < 0x10000 then "\\u" + Hex4(c as int)
    else
      var v := c as int - 0x10000;
      "\\u" + Hex4(0xD800 + v / 0x400) + "\\u" + Hex4(0xDC00 + v % 0x400)
  }

  /** The body of a JSON string literal for `s`. */
  function Escape(s: string): (r: string)
    ensures |r| >= |s|
    ensures forall i :: 0 <= i < |r| ==> Printable(r[i])
  {
    if |s| == 0 then "" else EscapeChar(s[0]) + Escape(s[1..])
  }

  /** The JSON string literal for `s`: printable ASCII between quotes. */
  function Quote(s: string): (r: string)
    ensures |r| >= 2 && r[0] == '"' && r[|r| - 1] == '"'
    ensures forall i :: 0 <= i < |r| ==> Printable(r[i])
  {
    "\"" + Escape(s) + "\""
  }

  /** The character a one-letter escape stands for. */
  function SimpleEscape(c: char): Option<char> {
    if c == '"' then Some('"')
    else if c == '\\' then Some('\\')
    else if c == '/' then Some('/')
    else if c == 'n' then Some('\n')
    else if c == 'r' then Some('\r')
    else if c == 't' then Some('\t')
    else if c == 'b' then Some(BACKSPACE)
    else if c == 'f' then Some(FORM_FEED)
    else None
  }

  function Prepend(c: char, rest: Option<string>): Option<string> {
    if rest.Some? then Some([c] + rest.value) else None
  }

  /** Reads back the escapes `Escape` writes: the text a string-literal
      body stands for, or `None` for an escape it does not know or a lone
      surrogate. */
  function Unescape(t: string): Option<string>
    decreases |t|
  {
    if |t| == 0 then Some("")
    else if t[0] != '\\' then Prepend(t[0], Unescape(t[1..]))
    else if |t| >= 2 && SimpleEscape(t[1]).Some? then Prepend(SimpleEscape(t[1]).value, Unescape(t[2..]))
    else if |t| >= 6 && t[1] == 'u' && ParseHex4(t[2..6]).Some? then
      var n := ParseHex4(t[2..6]).value;
      if 0xD800 <= n < 0xDC00 && |t| >= 12 && t[6] == '\\' && t[7] == 'u'
         && ParseHex4(t[8..12]).Some? && 0xDC00 <= ParseHex4(t[8..12]).value < 0xE000 then
        var m := ParseHex4(t[8..12]).value;
        Prepend((0x10000 + (n - 0xD800) * 0x400 + (m - 0xDC00)) as char, Unescape(t[12..]))
      else if 0xD800 <= n < 0xE000 then None
      else Prepend(n as char, Unescape(t[6..]))
    else None
  }

  /** A `\uXXXX` escape of a character of the Basic Multilingual Plane
      reads back as that character. */
  lemma UnescapeBmp(c: char, rest: string)
    requires !Printable(c) && c as int < 0x10000
    ensures Unescape("\\u" + Hex4(c as int) + rest) == Prepend(c, Unescape(rest))
  {
    var t := "\\u" + Hex4(c as int) + rest;
    Hex4RoundTrip(c as int);
    assert t[2..6] == Hex4(c as int);
    assert t[6..] == rest;
  }

  /** The two halves of a surrogate pair are in their ranges and recombine
      to the code point split. */
  lemma SurrogateHalves(v: nat)
    requires v < 0x100000
    ensures 0xD800 <= 0xD800 + v / 0x400 < 0xDC00
    ensures 0xDC00 <= 0xDC00 + v % 0x400 < 0xE000
    ensures 0x10000 + ((0xD800 + v / 0x400) - 0xD800) * 0x400 + ((0xDC00 + v % 0x400) - 0xDC00) == 0x10000 + v
  {
  }

  /** Two `\\u` escapes holding a high and a low surrogate read back as the
      character they encode together. */
  lemma UnescapePair(a: string, b: string, rest: string, hi: nat, lo: nat)
    requires |a| == 4 && |b| == 4 && ParseHex4(a) == Some(hi) && ParseHex4(b) == Some(lo)
    requires 0xD800 <= hi < 0xDC00 && 0xDC00 <= lo < 0xE000
    ensures Unescape("\\u" + a + "\\u" + b + rest)
            == Prepend((0x10000 + (hi - 0xD800) * 0x400 + (lo - 0xDC00)) as char, Unescape(rest))
  {
    var t := "\\u" + a + "\\u" + b + rest;
    assert t[0] == '\\' && t[1] == 'u' && t[6] == '\\' && t[7] == 'u';
    assert t[2..6] == a && t[8..12] == b && t[12..] == rest;
  }

  /** The code point of a character beyond the Basic Multilingual Plane
      splits into a high and a low surrogate that recombine to it. */
  lemma AstralHalves(c: char)
    requires c as int >= 0x10000
    ensures var v := c as int - 0x10000;
            var hi, lo := 0xD800 + v / 0x400, 0xDC00 + v % 0x400;
            && 0xD800 <= hi < 0xDC00 && 0xDC00 <= lo < 0xE000
            && (0x10000 + (hi - 0xD800) * 0x400 + (lo - 0xDC00)) as char == c
  {
    var v := c as int - 0x10000;
    SurrogateHalves(v);
    var hi, lo := 0xD800 + v / 0x400, 0xDC00 + v % 0x400;
    var x := 0x10000 + (hi - 0xD800) * 0x400 + (lo - 0xDC00);
    assert x == c as int;
  }

  /** A surrogate pair reads back as the character it encodes. */
  lemma UnescapeAstral(c: char, rest: string)
    requires c as int >= 0x10000
    ensures var v := c as int - 0x10000;
            Unescape("\\u" + Hex4(0xD800 + v / 0x400) + "\\u" + Hex4(0xDC00 + v % 0x400) + rest) == Prepend(c, Unescape(rest))
  {
    var v := c as int - 0x10000;
    var hi, lo := 0xD800 + v / 0x400, 0xDC00 + v % 0x400;
    AstralHalves(c);
    Hex4RoundTrip(hi);
    Hex4RoundTrip(lo);
    UnescapePair(Hex4(hi), Hex4(lo), rest, hi, lo);
  }

  /** Reading one escaped character and then the rest. */
  lemma UnescapeChar(c: char, rest: string)
    ensures Unescape(EscapeChar(c) + rest) == Prepend(c, Unescape(rest))
  {
    var t := EscapeChar(c) + rest;
    if c == '"' || c == '\\' || c == '\n' || c == '\r' || c == '\t' || c == BACKSPACE || c == FORM_FEED {
      assert t[2..] == rest;
    } else if Printable(c) {
      assert t[1..] == rest;
    } else if c as int < 0x10000 {
      UnescapeBmp(c, rest);
    } else {
      UnescapeAstral(c, rest);
    }
  }

  /** The escaping loses nothing: reading the literal's body gives back
      the text written. */
  lemma {:induction false} UnescapeEscape(s: string)
    ensures Unescape(Escape(s)) == Some(s)
  {
    if |s| > 0 {
      UnescapeEscape(s[1..]);
      UnescapeChar(s[0], Escape(s[1..]));
      assert [s[0]] + s[1..] == s;
    }
  }

  /** Escaping distinct texts gives distinct literals. */
  lemma QuoteInjective(a: string, b: string)
    requires Quote(a) == Quote(b)
    ensures a == b
  {
    var qa, qb := Quote(a), Quote(b);
    assert Escape(a) == qa[1..|qa| - 1];
    assert Escape(b) == qb[1..|qb| - 1];
    UnescapeEscape(a);
    UnescapeEscape(b);
  }

  /** The indentation of nesting level `level`: two spaces per level. */
  function Indent(level: nat): (r: string)
    ensures |r| == 2 * level
  {
    Repeat(' ', 2 * level)
  }

  /** One `"key": value` line of an object at nesting `level`. */
  function Member(key: string, value: string, level: nat): string {
    Indent(level) + Quote(key) + ": " + value
  }

  /** An object whose members' values are already rendered, as `indent=2`
      lays it out when it sits at nesting `level`: `{}` when empty,
      otherwise one member per line, one level deeper, separated by
      commas. */
  function Object(members: seq<(string, string)>, level: nat): (r: string)
    ensures |r| >= 2 && r[0] == '{' && r[|r| - 1] == '}'
    ensures members == [] <==> r == "{}"
  {
    if |members| == 0 then "{}"
    else
      var lines := seq(|members|, i requires 0 <= i < |members| => Member(members[i].0, members[i].1, level + 1));
      var r := "{\n" + Join(lines, ",\n") + "\n" + Indent(level) + "}";
      assert r[1] == '\n';
      r
  }
}
