/** How Python's `json.dumps` writes a string (with its default
    `ensure_ascii=True`), and the reading a JSON parser gives such a literal
    back (section 7 of RFC 8259). */
module PyJson {
  import opened Wrappers

  /** The characters `json.dumps` writes as themselves: printable ASCII from
      space to tilde. */
  predicate IsPlainAscii(c: char) {
    ' ' <= c <= '~'
  }

  function HexDigit(d: nat): (c: char)
    requires d < 16
    ensures IsHexDigit(c) && HexValue(c) == d
  {
    if d < 10 then (('0' as int) + d) as char else (('a' as int) + d - 10) as char
  }

  predicate IsHexDigit(c: char) {
    ('0' <= c <= '9') || ('a' <= c <= 'f') || ('A' <= c <= 'F')
  }

  function HexValue(c: char): (d: nat)
    requires IsHexDigit(c)
    ensures d < 16
  {
    if '0' <= c <= '9' then (c as int) - ('0' as int)
    else if 'a' <= c <= 'f' then (c as int) - ('a' as int) + 10
    else (c as int) - ('A' as int) + 10
  }

  /** Four lower-case hexadecimal digits, as `'{0:04x}'.format(v)`. */
  function Hex4(v: nat): (r: string)
    requires v < 0x10000
    ensures |r| == 4
  {
    [HexDigit(v / 0x1000), HexDigit(v / 0x100 % 16), HexDigit(v / 16 % 16), HexDigit(v % 16)]
  }

  /** The value of four hexadecimal digits. */
  function Hex4Value(h: string): (v: nat)
    requires |h| == 4 && IsHexDigit(h[0]) && IsHexDigit(h[1]) && IsHexDigit(h[2]) && IsHexDigit(h[3])
    ensures v < 0x10000
  {
    HexValue(h[0]) * 0x1000 + HexValue(h[1]) * 0x100 + HexValue(h[2]) * 16 + HexValue(h[3])
  }

  lemma Hex4RoundTrip(v: nat)
    requires v < 0x10000
    ensures var h := Hex4(v);
            IsHexDigit(h[0]) && IsHexDigit(h[1]) && IsHexDigit(h[2]) && IsHexDigit(h[3])
            && Hex4Value(h) == v
  {
    var a, b, c, d := v / 0x1000, v / 0x100 % 16, v / 16 % 16, v % 16;
    assert v / 0x100 == a * 16 + b;
    assert v / 16 == (a * 16 + b) * 16 + c;
  }

  /** `\uXXXX` for one UTF-16 code unit. */
  function UnitEscape(v: nat): (r: string)
    requires v < 0x10000
    ensures |r| == 6
  {
    "\\u" + Hex4(v)
  }

  /** How one character is written inside the quotes. */
  function EscapeChar(c: char): (r: string)
    ensures |r| >= 1
  {
    if c == '\\' then "\\\\"
    else if c == '"' then "\\\""
    else if c == '\U{8}' then "\\b"
    else if c == '\U{C}' then "\\f"
    else if c == '\n' then "\\n"
    else if c == '\r' then "\\r"
    else if c == '\t' then "\\t"
    else if IsPlainAscii(c) then [c]
    else if c as int < 0x10000 then UnitEscape(c as int)
    else UnitEscape(High(c)) + UnitEscape(Low(c))
  }

  /** The high (leading) surrogate of a character outside the Basic
      Multilingual Plane. */
  function High(c: char): (v: nat)
    requires c as int >= 0x10000
    ensures 0xD800 <= v <= 0xDBFF
  {
    0xD800 + (c as int - 0x10000) / 0x400
  }

  /** The low (trailing) surrogate of such a character. */
  function Low(c: char): (v: nat)
    requires c as int >= 0x10000
    ensures 0xDC00 <= v <= 0xDFFF
  {
    0xDC00 + (c as int - 0x10000) % 0x400
  }

  /** The pair decodes back to the character. */
  lemma PairDecodes(c: char)
    requires c as int >= 0x10000
    ensures 0x10000 + (High(c) - 0xD800) * 0x400 + (Low(c) - 0xDC00) == c as int
  {
  }

  /** The escaped body of a string literal (without the quotes). */
  function EscapeBody(s: string): (r: string)
    ensures forall k :: 0 <= k < |r| ==> IsPlainAscii(r[k])
  {
    if s == [] then [] else EscapeChar(s[0]) + EscapeBody(s[1..])
  }

  /** `json.dumps(s)` for a string `s`. */
  function Quote(s: string): string {
    "\"" + EscapeBody(s) + "\""
  }

  /** A JSON parser's reading of the body of a string literal: `None` where
      the body is not well formed (a bare quote or control character, an
      unknown escape, a lone surrogate). */
  function Unescape(t: string): Option<string>
    decreases |t|
  {
    if t == [] then Some([])
    else if t[0] != '\\' then
      if t[0] == '"' || t[0] < ' ' then None else Prepend(t[0], Unescape(t[1..]))
    else if |t| < 2 then None
    else if t[1] == '"' then Prepend('"', Unescape(t[2..]))
    else if t[1] == '\\' then Prepend('\\', Unescape(t[2..]))
    else if t[1] == '/' then Prepend('/', Unescape(t[2..]))
    else if t[1] == 'b' then Prepend('\U{8}', Unescape(t[2..]))
    else if t[1] == 'f' then Prepend('\U{C}', Unescape(t[2..]))
    else if t[1] == 'n' then Prepend('\n', Unescape(t[2..]))
    else if t[1] == 'r' then Prepend('\r', Unescape(t[2..]))
    else if t[1] == 't' then Prepend('\t', Unescape(t[2..]))
    else if t[1] == 'u' && IsUnitEscape(t) then
      var v := Hex4Value(t[2..6]);
      if v < 0xD800 || v > 0xDFFF then Prepend(v as char, Unescape(t[6..]))
      else if v <= 0xDBFF && IsUnitEscape(t[6..]) && 0xDC00 <= Hex4Value(t[8..12]) <= 0xDFFF then
        var w := Hex4Value(t[8..12]);
        Prepend((0x10000 + (v - 0xD800) * 0x400 + (w - 0xDC00)) as char, Unescape(t[12..]))
      else None
    else None
  }

  /** `t` starts with `\u` and four hexadecimal digits. */
  predicate IsUnitEscape(t: string) {
    |t| >= 6 && t[0] == '\\' && t[1] == 'u'
    && IsHexDigit(t[2]) && IsHexDigit(t[3]) && IsHexDigit(t[4]) && IsHexDigit(t[5])
  }

  function Prepend(c: char, rest: Option<string>): Option<string> {
    match rest
    case Some(s) => Some([c] + s)
    case None => None
  }

  lemma UnitEscapeReads(v: nat, rest: string)
    requires v < 0x10000
    ensures IsUnitEscape(UnitEscape(v) + rest)
    ensures Hex4Value((UnitEscape(v) + rest)[2..6]) == v
    ensures (UnitEscape(v) + rest)[6..] == rest
  {
    Hex4RoundTrip(v);
    assert (UnitEscape(v) + rest)[2..6] == Hex4(v);
  }

  lemma UnescapeBmp(c: char, rest: string)
    requires !IsPlainAscii(c) && c as int < 0x10000
    ensures Unescape(UnitEscape(c as int) + rest) == Prepend(c, Unescape(rest))
  {
    UnitEscapeReads(c as int, rest);
  }

  /** A high surrogate escape followed by a low one reads as the character
      the pair encodes. */
  lemma UnescapePair(t: string, c: char)
    requires IsUnitEscape(t) && IsUnitEscape(t[6..])
    requires 0xD800 <= Hex4Value(t[2..6]) <= 0xDBFF && 0xDC00 <= Hex4Value(t[6..][2..6]) <= 0xDFFF
    requires c as int == 0x10000 + (Hex4Value(t[2..6]) - 0xD800) * 0x400 + (Hex4Value(t[6..][2..6]) - 0xDC00)
    ensures Unescape(t) == Prepend(c, Unescape(t[12..]))
  {
    assert t[6..][2..6] == t[8..12];
  }

  lemma UnescapeAstral(c: char, rest: string)
    requires c as int >= 0x10000
    ensures Unescape(EscapeChar(c) + rest) == Prepend(c, Unescape(rest))
  {
    var hi, lo := High(c), Low(c);
    PairDecodes(c);
    var t := UnitEscape(hi) + (UnitEscape(lo) + rest);
    assert EscapeChar(c) + rest == t;
    UnitEscapeReads(hi, UnitEscape(lo) + rest);
    UnitEscapeReads(lo, rest);
    assert t[6..] == UnitEscape(lo) + rest;
    UnescapePair(t, c);
    assert t[12..] == t[6..][6..] == rest;
  }

  /** Reading one escaped character back yields that character. */
  lemma UnescapeChar(c: char, rest: string)
    ensures Unescape(EscapeChar(c) + rest) == Prepend(c, Unescape(rest))
  {
    var t := EscapeChar(c) + rest;
    if c == '\\' || c == '"' || c == '\U{8}' || c == '\U{C}' || c == '\n' || c == '\r' || c == '\t' {
      assert t[2..] == rest;
    } else if IsPlainAscii(c) {
      assert t[1..] == rest;
    } else if c as int < 0x10000 {
      UnescapeBmp(c, rest);
    } else {
      UnescapeAstral(c, rest);
    }
  }

  /** A parser reads back exactly the string `json.dumps` wrote. */
  lemma {:induction false} UnescapeEscapeBody(s: string)
    ensures Unescape(EscapeBody(s)) == Some(s)
  {
    if s != [] {
      UnescapeChar(s[0], EscapeBody(s[1..]));
      UnescapeEscapeBody(s[1..]);
      assert [s[0]] + s[1..] == s;
    }
  }

  /** The written literal is quoted, printable ASCII only (so it holds no line
      feed or carriage return), and its body reads back as `s`. */
  lemma QuoteIsOneLine(s: string)
    ensures var q := Quote(s);
            |q| >= 2 && q[0] == '"' && q[|q| - 1] == '"'
            && (forall k :: 0 <= k < |q| ==> IsPlainAscii(q[k]))
            && Unescape(q[1..|q| - 1]) == Some(s)
  {
    var q := Quote(s);
    assert q[1..|q| - 1] == EscapeBody(s);
    UnescapeEscapeBody(s);
  }
}
