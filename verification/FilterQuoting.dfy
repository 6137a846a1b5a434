/**
  Names offered by completion are quoted so that the tokenizer reads them back.
 */
module FilterQuoting {
  import opened Common
  import opened FilterParser
  import opened FilterTokens
  import opened Hexadecimal
  import FilterGrammar
  import Text

  // ----- Go's quoting -----

  /** Control characters are never printed as they are. */
  ghost predicate NoControls(printable: char -> bool) {
    forall c :: printable(c) ==> ' ' <= c && c != '\U{7F}'
  }

  function ControlName(c: char): Option<char> {
    match c
    case '\U{7}' => Some('a')
    case '\U{8}' => Some('b')
    case '\U{C}' => Some('f')
    case '\n' => Some('n')
    case '\r' => Some('r')
    case '\t' => Some('t')
    case '\U{B}' => Some('v')
    case _ => None
  }

  function NumericMark(c: char): char {
    if c < ' ' || c == '\U{7F}' then 'x' else if c as int < 0x10000 then 'u' else 'U'
  }

  function QuoteRune(c: char, printable: char -> bool): string {
    if c == '"' || c == '\\' then ['\\', c]
    else if printable(c) then [c]
    else if ControlName(c).Some? then ['\\', ControlName(c).value]
    else ['\\', NumericMark(c)] + Hex(c as int, Digits(NumericMark(c)))
  }

  function QuoteBody(s: string, printable: char -> bool): string {
    if s == "" then "" else QuoteRune(s[0], printable) + QuoteBody(s[1..], printable)
  }

  function Quote(s: string, printable: char -> bool): string {
    ['"'] + QuoteBody(s, printable) + ['"']
  }

  lemma NumericReadBack(c: char)
    ensures var mark := NumericMark(c); NumericEscape(mark, Hex(c as int, Digits(mark))) == Some(c)
  {
    var mark := NumericMark(c);
    assert Power16(2) == 256 && Power16(4) == 0x10000 by { PowersOf16(); }
    assert Power16(8) == 0x1_0000_0000 by { PowersOf16(); }
    HexReadBack(c as int, Digits(mark));
  }

  /** One quoted character is read back as itself. */
  lemma UnescapeRune(c: char, printable: char -> bool, rest: string)
    requires NoControls(printable)
    ensures Unescape(QuoteRune(c, printable) + rest) == Prefixed(c, Unescape(rest))
  {
    var all := QuoteRune(c, printable) + rest;
    if c == '"' || c == '\\' {
      assert all[2..] == rest;
    } else if printable(c) {
      assert all[1..] == rest;
    } else if ControlName(c).Some? {
      assert all[2..] == rest;
    } else {
      UnescapeNumeric(c, rest);
    }
  }

  lemma UnescapeDigits(mark: char, digits: string, rest: string, c: char)
    requires NamedEscape(mark).None? && Digits(mark) > 0 && |digits| == Digits(mark)
    requires NumericEscape(mark, digits) == Some(c)
    ensures Unescape(['\\', mark] + digits + rest) == Prefixed(c, Unescape(rest))
  {
    var n := 2 + Digits(mark);
    var all := ['\\', mark] + digits + rest;
    assert all[0] == '\\' && all[1] == mark && all[2..n] == digits && all[n..] == rest;
  }

  lemma UnescapeNumeric(c: char, rest: string)
    ensures Unescape(['\\', NumericMark(c)] + Hex(c as int, Digits(NumericMark(c))) + rest) ==
              Prefixed(c, Unescape(rest))
  {
    NumericReadBack(c);
    UnescapeDigits(NumericMark(c), Hex(c as int, Digits(NumericMark(c))), rest, c);
  }

  lemma {:induction false} UnescapeBody(s: string, printable: char -> bool)
    requires NoControls(printable)
    ensures Unescape(QuoteBody(s, printable)) == Some(s)
  {
    if s != "" {
      UnescapeBody(s[1..], printable);
      UnescapeRune(s[0], printable, QuoteBody(s[1..], printable));
      assert [s[0]] + s[1..] == s;
    }
  }

  lemma {:induction false} ScanPlain(part: string, rest: string)
    requires forall k :: 0 <= k < |part| ==> part[k] != '"' && part[k] != '\\'
    ensures QuotedLength(part + rest) == |part| + QuotedLength(rest)
  {
    if part == "" {
      assert part + rest == rest;
    } else {
      assert (part + rest)[1..] == part[1..] + rest;
      ScanPlain(part[1..], rest);
    }
  }

  lemma ScanRune(c: char, printable: char -> bool, rest: string)
    ensures QuotedLength(QuoteRune(c, printable) + rest) == |QuoteRune(c, printable)| + QuotedLength(rest)
  {
    var all := QuoteRune(c, printable) + rest;
    if c == '"' || c == '\\' || (!printable(c) && ControlName(c).Some?) {
      assert all[2..] == rest;
    } else if printable(c) {
      assert all[1..] == rest;
    } else {
      var digits := Hex(c as int, Digits(NumericMark(c)));
      HexIsPlain(c as int, Digits(NumericMark(c)));
      assert all[2..] == digits + rest;
      ScanPlain(digits, rest);
    }
  }

  lemma {:induction false} ScanBody(s: string, printable: char -> bool, rest: string)
    ensures QuotedLength(QuoteBody(s, printable) + ['"'] + rest) == |QuoteBody(s, printable)| + 1
  {
    if s == "" {
      assert QuoteBody(s, printable) + ['"'] + rest == ['"'] + rest;
    } else {
      var head, tail := QuoteRune(s[0], printable), QuoteBody(s[1..], printable);
      ScanBody(s[1..], printable, rest);
      ScanRune(s[0], printable, tail + ['"'] + rest);
      assert QuoteBody(s, printable) + ['"'] + rest == head + (tail + ['"'] + rest);
    }
  }

  /** A quoted text is one quoted token with that text. */
  lemma QuotedHead(s: string, printable: char -> bool, rest: string)
    requires NoControls(printable)
    ensures Head(Quote(s, printable) + rest) == Some((Value(s, true), |Quote(s, printable)|))
  {
    var quoted := Quote(s, printable);
    var all, n := quoted + rest, |quoted|;
    assert all[1..] == QuoteBody(s, printable) + ['"'] + rest;
    ScanBody(s, printable, rest);
    assert all[..n] == quoted && quoted[1..n - 1] == QuoteBody(s, printable);
    UnescapeBody(s, printable);
  }

  // ----- completed names -----

  const SPECIAL := " \t,:=!<>~()\""

  predicate ContainsAny(s: string, chars: string)
    ensures ContainsAny(s, chars) <==> exists k :: 0 <= k < |s| && s[k] in chars
  {
    s != "" && (s[0] in chars || ContainsAny(s[1..], chars))
  }

  predicate NeedsQuotes(s: string) { IsBoolean(s) || ContainsAny(s, SPECIAL) }

  function QuoteCompletionName(s: string, printable: char -> bool): string {
    if NeedsQuotes(s) then Quote(s, printable) else s
  }

  /** Line breaks are the only separators that do not make a name quoted. */
  predicate Unbroken(s: string) {
    NeedsQuotes(s) || ('\n' !in s && '\r' !in s)
  }

  // ----- a condition of completed names -----

  /** The comparisons of the language. */
  const COMPARISONS := [":", "=", "!=", ">", ">=", "<", "<=", "~"]

  lemma OperatorStarts(s: string)
    requires s != "" && OperatorAt([s[0]]) == ""
    ensures OperatorAt(s) == ""
  {
  }

  lemma {:induction false} WordReaches(w: string, rest: string)
    requires forall k :: 0 <= k < |w| ==> !Boundary(w[k])
    requires rest == "" || Boundary(rest[0])
    ensures WordLength(w + rest) == |w|
  {
    if w == "" {
      assert w + rest == rest;
    } else {
      assert (w + rest)[1..] == w[1..] + rest;
      WordReaches(w[1..], rest);
    }
  }

  /** A text without boundaries is one token up to the next boundary. */
  lemma WordHead(w: string, rest: string)
    requires w != "" && (forall k :: 0 <= k < |w| ==> !Boundary(w[k])) && (rest == "" || Boundary(rest[0]))
    ensures w + rest != "" && !Blank((w + rest)[0]) && Head(w + rest) == Some((Value(w, false), |w|))
  {
    assert (w + rest)[0] == w[0] && (w + rest)[..|w|] == w;
    OperatorStarts(w + rest);
    WordReaches(w, rest);
  }

  lemma OperatorHead(operator: string, rest: string)
    requires operator in COMPARISONS && (rest == "" || rest[0] != '=')
    ensures OperatorAt(operator + rest) == operator
  {
    var all := operator + rest;
    assert all[..|operator|] == operator;
    assert |all| >= 2 && |operator| == 1 ==> all[1] == rest[0];
  }

  lemma BoundariesAreSpecial(c: char)
    ensures Boundary(c) ==> c in SPECIAL || c == '\n' || c == '\r'
    ensures c == '\n' || c == '\r' ==> Boundary(c)
  {
    if Boundary(c) && OperatorAt([c]) != "" {
      assert OperatorAt([c])[0] == c;
    }
  }

  /** A filter text: None is an error, and a blank text is the filter without an expression. */
  function Parsed(input: string): Option<Option<Expression>> {
    var source := Text.Trim(input);
    if source == "" then Some(None)
    else if Tokens(source).None? || ParseTokens(Tokens(source).value).None? then None
    else Some(ParseTokens(Tokens(source).value))
  }

  method ParseFilter(input: string) returns (r: Option<Option<Expression>>)
    ensures r == Parsed(input)
  {
    var source := Text.Trim(input);
    if source == "" {
      return Some(None);
    }
    var tokens := TokenizeFilter(source);
    if tokens.None? {
      return None;
    }
    var expression := ParseAll(tokens.value);
    r := if expression.None? then None else Some(expression);
  }

  /** The names a column or a value can have. */
  ghost predicate Name(s: string) { s != "" && Text.Trimmed(s) }

  lemma {:induction false} WordStops(s: string)
    ensures forall k :: 0 <= k < WordLength(s) ==> !Boundary(s[k])
    ensures WordLength(s) < |s| ==> Boundary(s[WordLength(s)])
  {
    if s != "" && !Boundary(s[0]) {
      WordStops(s[1..]);
    }
  }

  lemma UnquotedBoundaries(s: string, k: nat)
    requires !NeedsQuotes(s) && k < |s|
    ensures Boundary(s[k]) <==> s[k] == '\n' || s[k] == '\r'
  {
    BoundariesAreSpecial(s[k]);
  }

  /** An unbroken name is read as one operand. */
  lemma NameHead(s: string, printable: char -> bool, rest: string)
    requires NoControls(printable) && Name(s) && Unbroken(s) && (rest == "" || Boundary(rest[0]))
    ensures var name := QuoteCompletionName(s, printable);
            && name != "" && !Blank((name + rest)[0])
            && Head(name + rest) == Some((Value(s, NeedsQuotes(s)), |name|))
            && Plain(Value(s, NeedsQuotes(s)))
  {
    if NeedsQuotes(s) {
      QuotedHead(s, printable, rest);
    } else {
      forall k | 0 <= k < |s|
        ensures !Boundary(s[k])
      {
        UnquotedBoundaries(s, k);
      }
      WordHead(s, rest);
    }
  }

  /** A broken name is cut at its first line break. */
  lemma BrokenHead(s: string, printable: char -> bool, rest: string)
    requires Name(s) && !Unbroken(s)
    ensures QuoteCompletionName(s, printable) == s && !Blank((s + rest)[0])
    ensures Head(s + rest).Some? && Head(s + rest).value.0.Value? && |Head(s + rest).value.0.text| < |s|
  {
    var k := WordLength(s);
    WordStops(s);
    var b :| 0 <= b < |s| && (s[b] == '\n' || s[b] == '\r');
    UnquotedBoundaries(s, b);
    UnquotedBoundaries(s, 0);
    assert k < |s|;
    assert s + rest == s[..k] + (s[k..] + rest);
    WordHead(s[..k], s[k..] + rest);
  }

  function ConditionText(column: string, operator: string, value: string, printable: char -> bool): string {
    QuoteCompletionName(column, printable) + operator + QuoteCompletionName(value, printable)
  }

  lemma NameEnds(s: string, printable: char -> bool)
    requires Name(s)
    ensures var name := QuoteCompletionName(s, printable);
            name != "" && !Text.IsSpace(name[0]) && !Text.IsSpace(name[|name| - 1]) && name[0] != '='
  {
  }

  lemma ConditionTrimmed(column: string, operator: string, value: string, printable: char -> bool)
    requires Name(column) && Name(value)
    ensures var text := ConditionText(column, operator, value, printable); text != "" && Text.Trim(text) == text
  {
    NameEnds(column, printable);
    NameEnds(value, printable);
    var text := ConditionText(column, operator, value, printable);
    var first, last := QuoteCompletionName(column, printable), QuoteCompletionName(value, printable);
    assert text[0] == first[0] && text[|text| - 1] == last[|last| - 1];
    Text.TrimmedStays(text);
  }

  /** The operator between an unbroken column and any value is read as itself. */
  lemma OperatorRead(operator: string, value: string, printable: char -> bool)
    requires operator in COMPARISONS && Name(value)
    ensures var rest := operator + QuoteCompletionName(value, printable);
            && rest != "" && Boundary(rest[0]) && !Blank(rest[0])
            && Head(rest) == Some((Operator(operator), |operator|)) && Comparison(Operator(operator))
  {
    NameEnds(value, printable);
    OperatorHead(operator, QuoteCompletionName(value, printable));
    var rest := operator + QuoteCompletionName(value, printable);
    assert rest[0] == operator[0];
  }

  lemma TokensStep(part: string, rest: string, token: Token)
    requires part + rest != "" && !Blank((part + rest)[0]) && Head(part + rest) == Some((token, |part|))
    ensures Tokens(part + rest) == Before(token, Tokens(rest))
  {
    assert (part + rest)[|part|..] == rest;
  }

  lemma TwoTokens(first: string, second: string, rest: string, a: Token, b: Token)
    requires first + (second + rest) != "" && !Blank((first + (second + rest))[0])
    requires Head(first + (second + rest)) == Some((a, |first|))
    requires second + rest != "" && !Blank((second + rest)[0]) && Head(second + rest) == Some((b, |second|))
    ensures Tokens(first + second + rest) == Before(a, Before(b, Tokens(rest)))
  {
    TokensStep(first, second + rest, a);
    TokensStep(second, rest, b);
    assert first + second + rest == first + (second + rest);
  }

  /** After an unbroken column come the operator and the tokens of the value. */
  lemma ColumnRead(column: string, operator: string, value: string, printable: char -> bool)
    requires NoControls(printable) && Name(column) && Name(value) && operator in COMPARISONS && Unbroken(column)
    ensures Tokens(ConditionText(column, operator, value, printable))
            == Before(Value(column, NeedsQuotes(column)),
                      Before(Operator(operator), Tokens(QuoteCompletionName(value, printable))))
    ensures Plain(Value(column, NeedsQuotes(column)))
  {
    var first, last := QuoteCompletionName(column, printable), QuoteCompletionName(value, printable);
    OperatorRead(operator, value, printable);
    NameHead(column, printable, operator + last);
    TwoTokens(first, operator, last, Value(column, NeedsQuotes(column)), Operator(operator));
  }

  lemma ValueRead(value: string, printable: char -> bool)
    requires NoControls(printable) && Name(value) && Unbroken(value)
    ensures Tokens(QuoteCompletionName(value, printable)) == Some([Value(value, NeedsQuotes(value))])
    ensures Plain(Value(value, NeedsQuotes(value)))
  {
    var last := QuoteCompletionName(value, printable);
    NameHead(value, printable, "");
    TokensStep(last, "", Value(value, NeedsQuotes(value)));
    assert last + "" == last;
    assert [Value(value, NeedsQuotes(value))] + [] == [Value(value, NeedsQuotes(value))];
  }

  lemma ConditionParsed(column: Token, operator: Token, value: Token)
    requires Plain(column) && Comparison(operator) && Plain(value)
    ensures ParseTokens([column, operator, value]) == Some(Condition(column.text, operator.text, value.text))
  {
    var u := FilterGrammar.Compared(column, operator, value);
    var t := FilterGrammar.OneUnary(u);
    assert FilterGrammar.DerivesUnary(u, true) && FilterGrammar.DerivesAnd(t, true);
    assert FilterGrammar.YieldUnary(u) == [column, operator, value]
             && FilterGrammar.YieldAnd(t) == [column, operator, value];
    assert FilterGrammar.MeaningAnd(t) == FilterGrammar.MeaningUnary(u);
    FilterGrammar.DerivedParsed(FilterGrammar.OneAnd(t));
  }

  /** A filter that is one condition, and does not start with a parenthesis, has one token or three. */
  lemma OneCondition(tokens: seq<Token>, column: string, operator: string, value: string)
    requires ParseTokens(tokens) == Some(Condition(column, operator, value)) && tokens != [] && tokens[0].Value?
    ensures |tokens| == 1 || |tokens| == 3
    ensures |tokens| == 1 ==> column == "text"
    ensures |tokens| == 3 ==> tokens[0].text == column && tokens[2].Value? && tokens[2].text == value
  {
    var t := FilterGrammar.OrDerived(tokens, 0);
    assert FilterGrammar.YieldOr(t) == tokens;
    assert t.OneAnd? && t.only.OneUnary?;
    var u := t.only.only;
    assert FilterGrammar.DerivesAnd(t.only, true) && FilterGrammar.DerivesUnary(u, true);
    assert FilterGrammar.YieldUnary(u) == tokens && FilterGrammar.MeaningUnary(u) == Condition(column, operator, value);
    match u
    case Negated(mark, child) =>
    case Group(inner) =>
    case Bare(v) =>
    case Compared(c, o, v) =>
  }

  /**
    A condition written with completed names is parsed to that condition, whatever the names contain,
    exactly when no name left unquoted contains a line break.
   */
  lemma CompletionReadBack(column: string, operator: string, value: string, printable: char -> bool)
    requires NoControls(printable) && Name(column) && Name(value) && operator in COMPARISONS
    ensures Parsed(ConditionText(column, operator, value, printable)) == Some(Some(Condition(column, operator, value)))
            <==> Unbroken(column) && Unbroken(value)
  {
    ConditionTrimmed(column, operator, value, printable);
    if Unbroken(column) && Unbroken(value) {
      ColumnRead(column, operator, value, printable);
      ValueRead(value, printable);
      OperatorRead(operator, value, printable);
      var first, last := Value(column, NeedsQuotes(column)), Value(value, NeedsQuotes(value));
      assert [first] + ([Operator(operator)] + [last]) == [first, Operator(operator), last];
      assert Tokens(ConditionText(column, operator, value, printable)) == Some([first, Operator(operator), last]);
      ConditionParsed(first, Operator(operator), last);
    } else if !Unbroken(column) {
      BrokenColumn(column, operator, value, printable);
    } else {
      BrokenValue(column, operator, value, printable);
    }
  }

  lemma BrokenHere()
    ensures Name("a\nb") && Name("c") && "=" in COMPARISONS && !Unbroken("a\nb")
  {
    var s := "a\nb";
    assert Text.Lower(s)[1] == '\n';
    assert s[1..][0] == '\n' && s[1..][1..] == "b" && "b"[1..] == "";
    assert !ContainsAny("b", SPECIAL) && !ContainsAny(s[1..], SPECIAL);
    assert s[1] == '\n' && "=" == COMPARISONS[1];
  }

  /** A name with a line break and nothing else special is not read back. */
  lemma LineBreakIsLost(printable: char -> bool)
    requires NoControls(printable)
    ensures Parsed(ConditionText("a\nb", "=", "c", printable)) != Some(Some(Condition("a\nb", "=", "c")))
  {
    BrokenHere();
    hide *;
    CompletionReadBack("a\nb", "=", "c", printable);
  }

  lemma TextIsUnbroken()
    ensures Unbroken("text")
  {
  }

  /** A text whose first token falls short of the column is no condition on that column. */
  lemma CutColumn(text: string, column: string, operator: string, value: string)
    requires text != "" && Text.Trim(text) == text && !Blank(text[0]) && column != "text"
    requires Head(text).Some? && Head(text).value.0.Value? && |Head(text).value.0.text| < |column|
    ensures Parsed(text) != Some(Some(Condition(column, operator, value)))
  {
    if Parsed(text) == Some(Some(Condition(column, operator, value))) {
      var tokens := Tokens(text).value;
      assert tokens[0] == Head(text).value.0;
      OneCondition(tokens, column, operator, value);
    }
  }

  lemma BrokenColumn(column: string, operator: string, value: string, printable: char -> bool)
    requires Name(column) && Name(value) && !Unbroken(column)
    ensures Parsed(ConditionText(column, operator, value, printable)) != Some(Some(Condition(column, operator, value)))
  {
    hide Parsed, Head, QuoteCompletionName;
    ConditionTrimmed(column, operator, value, printable);
    var rest := operator + QuoteCompletionName(value, printable);
    BrokenHead(column, printable, rest);
    assert ConditionText(column, operator, value, printable) == column + rest;
    TextIsUnbroken();
    CutColumn(column + rest, column, operator, value);
  }

  /** A text whose third token falls short of the value is no condition with that value. */
  lemma CutValue(text: string, a: Token, b: Token, rest: string, column: string, operator: string, value: string)
    requires text != "" && Text.Trim(text) == text && a.Value? && Tokens(text) == Before(a, Before(b, Tokens(rest)))
    requires rest != "" && !Blank(rest[0])
    requires Head(rest).Some? && Head(rest).value.0.Value? && |Head(rest).value.0.text| < |value|
    ensures Parsed(text) != Some(Some(Condition(column, operator, value)))
  {
    if Parsed(text) == Some(Some(Condition(column, operator, value))) {
      var tokens := Tokens(text).value;
      assert tokens[0] == a && tokens[2] == Head(rest).value.0;
      OneCondition(tokens, column, operator, value);
    }
  }

  lemma BrokenValue(column: string, operator: string, value: string, printable: char -> bool)
    requires NoControls(printable) && Name(column) && Name(value) && operator in COMPARISONS
    requires Unbroken(column) && !Unbroken(value)
    ensures Parsed(ConditionText(column, operator, value, printable)) != Some(Some(Condition(column, operator, value)))
  {
    ConditionTrimmed(column, operator, value, printable);
    ColumnRead(column, operator, value, printable);
    BrokenHead(value, printable, "");
    assert value + "" == value;
    CutValue(ConditionText(column, operator, value, printable), Value(column, NeedsQuotes(column)), Operator(operator),
             value, column, operator, value);
  }
}
