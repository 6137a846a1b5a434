/** The tokenizer of the filter language. */
module FilterTokens {
  import opened Common
  import opened FilterParser
  import opened Hexadecimal

  predicate Blank(c: char) { c == ' ' || c == '\t' || c == '\n' || c == '\r' }

  const OPERATORS := [">=", "<=", "!=", ":", "=", ">", "<", "~", "!"]

  /** The first operator of the list that the text starts with. */
  function OperatorAt(s: string): (operator: string)
    ensures operator != "" ==> operator in OPERATORS && operator <= s
  {
    if ">=" <= s then ">=" else if "<=" <= s then "<=" else if "!=" <= s then "!="
    else if ":" <= s then ":" else if "=" <= s then "=" else if ">" <= s then ">"
    else if "<" <= s then "<" else if "~" <= s then "~" else if "!" <= s then "!" else ""
  }

  predicate Boundary(c: char) { Blank(c) || c == '(' || c == ')' || c == '"' || OperatorAt([c]) != "" }

  function WordLength(s: string): (n: nat)
    ensures n <= |s|
  {
    if s == "" || Boundary(s[0]) then 0 else 1 + WordLength(s[1..])
  }

  /** How far a quoted value reaches; an escape always takes two characters. */
  function QuotedLength(s: string): nat {
    if s == "" then 0
    else if s[0] == '\\' then 2 + if |s| < 2 then 0 else QuotedLength(s[2..])
    else if s[0] == '"' then 1
    else 1 + QuotedLength(s[1..])
  }

  // ----- Go's interpreted string literals -----

  function NamedEscape(c: char): Option<char> {
    match c
    case 'a' => Some('\U{7}')
    case 'b' => Some('\U{8}')
    case 'f' => Some('\U{C}')
    case 'n' => Some('\n')
    case 'r' => Some('\r')
    case 't' => Some('\t')
    case 'v' => Some('\U{B}')
    case '\\' => Some('\\')
    case '"' => Some('"')
    case _ => None
  }

  /** The number of digits behind a numeric escape. */
  function Digits(c: char): nat {
    match c
    case 'x' => 2
    case 'u' => 4
    case 'U' => 8
    case _ => 0
  }

  /** The character of a numeric escape; bytes outside ASCII are no characters of their own. */
  function NumericEscape(c: char, digits: string): Option<char> {
    var v := HexNumber(digits);
    if v < 0 || !Scalar(v) || (c == 'x' && v >= 0x80) then None else Some(v as char)
  }

  function Prefixed(c: char, rest: Option<string>): Option<string> {
    if rest.None? then None else Some([c] + rest.value)
  }

  /** The text between the quotes of a literal. */
  function Unescape(s: string): Option<string> {
    if s == "" then Some("")
    else if s[0] == '"' || s[0] == '\n' then None
    else if s[0] != '\\' then Prefixed(s[0], Unescape(s[1..]))
    else if |s| < 2 then None
    else if NamedEscape(s[1]).Some? then Prefixed(NamedEscape(s[1]).value, Unescape(s[2..]))
    else
      var n := 2 + Digits(s[1]);
      if n == 2 || |s| < n || NumericEscape(s[1], s[2..n]).None? then None
      else Prefixed(NumericEscape(s[1], s[2..n]).value, Unescape(s[n..]))
  }

  /** The named escapes of Go's string literals, with their characters. */
  const NAMED_ESCAPES := {('a', '\U{7}'), ('b', '\U{8}'), ('f', '\U{C}'), ('n', '\n'), ('r', '\r'), ('t', '\t'),
                          ('v', '\U{B}'), ('\\', '\\'), ('"', '"')}

  /** Each is read as its character. */
  lemma NamedEscapeRead(mark: char, c: char, rest: string)
    requires (mark, c) in NAMED_ESCAPES
    ensures Unescape(['\\', mark] + rest) == Prefixed(c, Unescape(rest))
  {
    assert (['\\', mark] + rest)[2..] == rest;
  }

  function Unquote(s: string): Option<string> {
    if |s| < 2 || s[0] != '"' || s[|s| - 1] != '"' then None else Unescape(s[1..|s| - 1])
  }

  // ----- tokens -----

  function Before(token: Token, rest: Option<seq<Token>>): Option<seq<Token>> {
    if rest.None? then None else Some([token] + rest.value)
  }

  /** The first token of a text and its length; None is a syntax error. */
  function Head(s: string): (r: Option<(Token, nat)>)
    requires s != "" && !Blank(s[0])
    ensures r.Some? ==> 0 < r.value.1 <= |s|
  {
    if s[0] == '(' then Some((LeftParen, 1))
    else if s[0] == ')' then Some((RightParen, 1))
    else if s[0] == '"' then
      var n := 1 + QuotedLength(s[1..]);
      if n > |s| || s[n - 1] != '"' || Unquote(s[..n]).None? then None
      else Some((Value(Unquote(s[..n]).value, true), n))
    else if OperatorAt(s) != "" then Some((Operator(OperatorAt(s)), |OperatorAt(s)|))
    else
      var n := WordLength(s);
      if n == 0 then None else Some((Value(s[..n], false), n))
  }

  /** The tokens of a text; None is a syntax error. */
  function Tokens(s: string): Option<seq<Token>>
    decreases |s|
  {
    if s == "" then Some([])
    else if Blank(s[0]) then Tokens(s[1..])
    else if Head(s).None? then None
    else Before(Head(s).value.0, Tokens(s[Head(s).value.1..]))
  }

  // ----- the tokenizer as it runs -----

  method FilterOperatorAt(runes: string, index: nat) returns (operator: string)
    requires index <= |runes|
    ensures operator == OperatorAt(runes[index..])
  {
    for k := 0 to |OPERATORS|
      invariant forall l :: 0 <= l < k ==> !(OPERATORS[l] <= runes[index..])
    {
      var chars := OPERATORS[k];
      if index + |chars| > |runes| {
        continue;
      }
      if runes[index..index + |chars|] == chars {
        assert chars <= runes[index..];
        return chars;
      }
    }
    operator := "";
  }

  method ScanQuoted(runes: string, start: nat) returns (index: nat)
    requires start <= |runes|
    ensures index == start + QuotedLength(runes[start..])
  {
    index := start;
    while index < |runes|
      invariant start <= index
      invariant start + QuotedLength(runes[start..]) == index + if index <= |runes| then QuotedLength(runes[index..])
                                                                else 0
      decreases |runes| - index
    {
      if runes[index] == '\\' {
        index := index + 2;
        continue;
      }
      if runes[index] == '"' {
        return index + 1;
      }
      index := index + 1;
    }
  }

  method ScanWord(runes: string, start: nat) returns (index: nat)
    requires start <= |runes|
    ensures index == start + WordLength(runes[start..])
  {
    index := start;
    while index < |runes| && !Boundary(runes[index])
      invariant start <= index <= |runes|
      invariant WordLength(runes[start..]) == index - start + WordLength(runes[index..])
    {
      index := index + 1;
    }
  }

  function Joined(tokens: seq<Token>, rest: Option<seq<Token>>): Option<seq<Token>> {
    if rest.None? then None else Some(tokens + rest.value)
  }

  lemma JoinedBefore(tokens: seq<Token>, token: Token, rest: Option<seq<Token>>)
    ensures Joined(tokens, Before(token, rest)) == Joined(tokens + [token], rest)
  {
    if rest.Some? {
      assert tokens + ([token] + rest.value) == tokens + [token] + rest.value;
    }
  }

  method TokenizeFilter(runes: string) returns (r: Option<seq<Token>>)
    ensures r == Tokens(runes)
  {
    var tokens: seq<Token>, index: nat := [], 0;
    assert runes[0..] == runes;
    JoinedNothing(Tokens(runes));
    while index < |runes|
      invariant index <= |runes|
      invariant Tokens(runes) == Joined(tokens, Tokens(runes[index..]))
      decreases |runes| - index
    {
      if Blank(runes[index]) {
        assert runes[index..][1..] == runes[index + 1..];
        index := index + 1;
        continue;
      }
      var token := NextToken(runes, index);
      if token.None? {
        return None;
      }
      var next := index + token.value.1;
      assert runes[index..][token.value.1..] == runes[next..];
      JoinedBefore(tokens, token.value.0, Tokens(runes[next..]));
      tokens, index := tokens + [token.value.0], next;
    }
    assert runes[index..] == "" && tokens + [] == tokens;
    r := Some(tokens);
  }

  lemma JoinedNothing(rest: Option<seq<Token>>)
    ensures Joined([], rest) == rest
  {
    if rest.Some? {
      assert [] + rest.value == rest.value;
    }
  }

  method NextToken(runes: string, index: nat) returns (token: Option<(Token, nat)>)
    requires index < |runes| && !Blank(runes[index])
    ensures token == Head(runes[index..])
  {
    if runes[index] == '(' {
      return Some((LeftParen, 1));
    }
    if runes[index] == ')' {
      return Some((RightParen, 1));
    }
    if runes[index] == '"' {
      token := NextQuoted(runes, index);
      return;
    }
    var operator := FilterOperatorAt(runes, index);
    if |operator| > 0 {
      return Some((Operator(operator), |operator|));
    }
    var end := ScanWord(runes, index);
    assert runes[index..][..end - index] == runes[index..end];
    token := if end == index then None else Some((Value(runes[index..end], false), end - index));
  }

  method NextQuoted(runes: string, index: nat) returns (token: Option<(Token, nat)>)
    requires index < |runes| && runes[index] == '"'
    ensures token == Head(runes[index..])
  {
    var end := ScanQuoted(runes, index + 1);
    assert runes[index..][1..] == runes[index + 1..];
    if end > |runes| || runes[end - 1] != '"' {
      return None;
    }
    assert runes[index..][..end - index] == runes[index..end];
    var value := Unquote(runes[index..end]);
    token := if value.None? then None else Some((Value(value.value, true), end - index));
  }
}
