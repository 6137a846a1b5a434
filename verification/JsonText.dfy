/**
  JSON strings (section 7 of RFC 8259) as Go writes them, with HTML characters
  and line separators escaped, and as it reads them.
 */
module JsonText {
  import opened Common
  import opened Hexadecimal

  // ----- writing -----

  function ShortEscape(c: char): Option<char> {
    match c
    case '"' => Some('"')
    case '\\' => Some('\\')
    case '\U{8}' => Some('b')
    case '\U{C}' => Some('f')
    case '\n' => Some('n')
    case '\r' => Some('r')
    case '\t' => Some('t')
    case _ => None
  }

  predicate LongEscape(c: char) {
    c < ' ' || c == '<' || c == '>' || c == '&' || c == '\U{2028}' || c == '\U{2029}'
  }

  function EscapeChar(c: char): string {
    if ShortEscape(c).Some? then ['\\', ShortEscape(c).value]
    else if LongEscape(c) then ['\\', 'u'] + Hex(c as int, 4)
    else [c]
  }

  function Escape(s: string): string {
    if s == "" then "" else EscapeChar(s[0]) + Escape(s[1..])
  }

  function Quote(s: string): string { ['"'] + Escape(s) + ['"'] }

  // ----- reading -----

  function ShortUnescape(c: char): Option<char> {
    match c
    case '"' => Some('"')
    case '\\' => Some('\\')
    case '/' => Some('/')
    case 'b' => Some('\U{8}')
    case 'f' => Some('\U{C}')
    case 'n' => Some('\n')
    case 'r' => Some('\r')
    case 't' => Some('\t')
    case _ => None
  }

  const REPLACEMENT := '\U{FFFD}'

  /** The number behind \u, or -1. */
  function CodeUnit(s: string): (v: int)
    ensures -1 <= v < 0x10000
  {
    if |s| < 6 || s[0] != '\\' || s[1] != 'u' then -1
    else if HexNumber(s[2..6]) < 0x10000 then HexNumber(s[2..6]) else -1
  }

  predicate HighSurrogate(v: int) { 0xD800 <= v < 0xDC00 }

  predicate LowSurrogate(v: int) { 0xDC00 <= v < 0xE000 }

  /** The character of one or two \u escapes and their length; lone surrogates are replaced. */
  function Unicode(s: string): (r: (char, nat))
    requires CodeUnit(s) >= 0
    ensures 0 < r.1 <= |s|
  {
    var v := CodeUnit(s);
    if Scalar(v) then (v as char, 6)
    else
      var low := CodeUnit(s[6..]);
      if HighSurrogate(v) && LowSurrogate(low)
      then ((0x10000 + (v - 0xD800) * 0x400 + (low - 0xDC00)) as char, 12)
      else (REPLACEMENT, 6)
  }

  function Prefixed(c: char, rest: Option<string>): Option<string> {
    if rest.None? then None else Some([c] + rest.value)
  }

  /** The text between the quotes. */
  function Unescape(s: string): Option<string> {
    if s == "" then Some("")
    else if s[0] == '"' || s[0] < ' ' then None
    else if s[0] != '\\' then Prefixed(s[0], Unescape(s[1..]))
    else if |s| < 2 then None
    else if ShortUnescape(s[1]).Some? then Prefixed(ShortUnescape(s[1]).value, Unescape(s[2..]))
    else if CodeUnit(s) < 0 then None
    else Prefixed(Unicode(s).0, Unescape(s[Unicode(s).1..]))
  }

  /** Reading into a string; null leaves the string empty. */
  function ParseString(s: string): Option<string> {
    if s == "null" then Some("")
    else if |s| < 2 || s[0] != '"' || s[|s| - 1] != '"' then None
    else Unescape(s[1..|s| - 1])
  }

  // ----- round trip -----

  lemma LongReadBack(c: char, rest: string)
    requires LongEscape(c)
    ensures Unescape(['\\', 'u'] + Hex(c as int, 4) + rest) == Prefixed(c, Unescape(rest))
  {
    PowersOf16();
    HexReadBack(c as int, 4);
    UnicodeReadBack(c, Hex(c as int, 4), rest);
  }

  lemma UnicodeReadBack(c: char, digits: string, rest: string)
    requires |digits| == 4 && HexNumber(digits) == c as int < 0x10000
    ensures Unescape(['\\', 'u'] + digits + rest) == Prefixed(c, Unescape(rest))
  {
    var all := ['\\', 'u'] + digits + rest;
    assert all[0] == '\\' && all[1] == 'u' && all[2..6] == digits && all[6..] == rest;
    assert CodeUnit(all) == c as int && Unicode(all) == (c, 6);
    assert ShortUnescape('u').None?;
  }

  lemma CharReadBack(c: char, rest: string)
    ensures Unescape(EscapeChar(c) + rest) == Prefixed(c, Unescape(rest))
  {
    var all := EscapeChar(c) + rest;
    if ShortEscape(c).Some? {
      assert all[2..] == rest;
    } else if LongEscape(c) {
      LongReadBack(c, rest);
    } else {
      assert all[1..] == rest;
    }
  }

  lemma {:induction false} EscapeReadBack(s: string)
    ensures Unescape(Escape(s)) == Some(s)
  {
    if s != "" {
      EscapeReadBack(s[1..]);
      CharReadBack(s[0], Escape(s[1..]));
      assert [s[0]] + s[1..] == s;
    }
  }

  /** What was written is read back. */
  lemma QuoteReadBack(s: string)
    ensures ParseString(Quote(s)) == Some(s)
  {
    EscapeReadBack(s);
    assert Quote(s)[1..|Quote(s)| - 1] == Escape(s);
  }

  /** The short forms of the standard, with their characters. */
  const SHORT_FORMS := {('"', '"'), ('\\', '\\'), ('/', '/'), ('b', '\U{8}'), ('f', '\U{C}'), ('n', '\n'), ('r', '\r'),
                        ('t', '\t')}

  /** Each is read as its character. */
  lemma StandardEscape(mark: char, c: char, rest: string)
    requires (mark, c) in SHORT_FORMS
    ensures Unescape(['\\', mark] + rest) == Prefixed(c, Unescape(rest))
  {
    assert (['\\', mark] + rest)[2..] == rest;
  }

  lemma {:induction false} HexIsVisible(n: nat, width: nat)
    ensures forall k :: 0 <= k < width ==> Hex(n, width)[k] >= ' '
  {
    if width > 0 {
      HexIsVisible(n / 16, width - 1);
    }
  }

  /** A written string is one line of visible characters between quotes. */
  lemma {:induction false} EscapeIsVisible(s: string)
    ensures forall k :: 0 <= k < |Escape(s)| ==> Escape(s)[k] >= ' '
  {
    if s != "" {
      EscapeIsVisible(s[1..]);
      HexIsVisible(s[0] as int, 4);
    }
  }
}
