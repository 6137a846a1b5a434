/**
  How filters are spelled: which texts the tokenizer reads as which tokens, and that an expression
  written down is parsed back.
 */
module FilterSpelling {
  import opened Common
  import opened FilterParser
  import opened FilterTokens
  import opened FilterQuoting
  import opened Hexadecimal
  import FilterGrammar
  import Text

  // ----- the lexical grammar -----

  const BLANKS := " \t\n\r"

  /** The characters that end a word. */
  const SEPARATORS := " \t\n\r()\":=<>~!"

  ghost predicate AllIn(s: string, chars: string) { forall k :: 0 <= k < |s| ==> s[k] in chars }

  ghost predicate NoneIn(s: string, chars: string) { forall k :: 0 <= k < |s| ==> s[k] !in chars }

  /** One token as it stands in a text, with the blanks before it. */
  datatype Piece = Piece(gap: string, spelling: string, token: Token)

  ghost predicate Spells(spelling: string, token: Token) {
    match token
    case LeftParen => spelling == "("
    case RightParen => spelling == ")"
    case Operator(text) => spelling == text && text in {":", "=", "!=", ">", ">=", "<", "<=", "~", "!"}
    case Value(text, quoted) =>
      if quoted then Unquote(spelling) == Some(text) else spelling == text && text != "" && NoneIn(text, SEPARATORS)
  }

  /** A word ends at a separator, and an operator where no longer one could be read. */
  ghost predicate Ends(token: Token, rest: string) {
    match token
    case Value(text, quoted) => quoted || rest == "" || rest[0] in SEPARATORS
    case Operator(text) => text in {"!", "<", ">"} ==> rest == "" || rest[0] != '='
    case _ => true
  }

  function Written(pieces: seq<Piece>, tail: string): string {
    if pieces == [] then tail else pieces[0].gap + pieces[0].spelling + Written(pieces[1..], tail)
  }

  ghost predicate WellWritten(pieces: seq<Piece>, tail: string) {
    if pieces == [] then AllIn(tail, BLANKS)
    else
      && AllIn(pieces[0].gap, BLANKS) && Spells(pieces[0].spelling, pieces[0].token)
      && Ends(pieces[0].token, Written(pieces[1..], tail)) && WellWritten(pieces[1..], tail)
  }

  function TokensOf(pieces: seq<Piece>): seq<Token> {
    if pieces == [] then [] else [pieces[0].token] + TokensOf(pieces[1..])
  }

  /** The text consists of spelled tokens, blanks between them where they are needed. */
  ghost predicate Reads(s: string, tokens: seq<Token>) {
    exists pieces, tail :: WellWritten(pieces, tail) && Written(pieces, tail) == s && TokensOf(pieces) == tokens
  }

  // ----- one token -----

  lemma BlankIs(c: char)
    ensures Blank(c) <==> c in BLANKS
  {
  }

  lemma BoundaryIs(c: char)
    ensures Boundary(c) <==> c in SEPARATORS
  {
    var one := [c];
    assert |one| == 1 && one[0] == c;
    assert forall operator | operator in OPERATORS :: |operator| >= 1;
    if OperatorAt(one) != "" {
      assert OperatorAt(one)[0] == c;
    }
  }

  lemma {:induction false} HexIsHex(s: string)
    requires HexNumber(s) >= 0
    ensures forall k :: 0 <= k < |s| ==> s[k] != '"' && s[k] != '\\'
  {
    if s != "" {
      HexIsHex(s[..|s| - 1]);
    }
  }

  /** A closing quote ends exactly what can be read as a literal. */
  lemma {:induction false} LiteralEnds(body: string, rest: string)
    requires Unescape(body).Some?
    ensures QuotedLength(body + ['"'] + rest) == |body| + 1
    decreases |body|
  {
    var all := body + ['"'] + rest;
    if body == "" {
      assert all[0] == '"';
    } else if body[0] != '\\' {
      assert all[1..] == body[1..] + ['"'] + rest;
      LiteralEnds(body[1..], rest);
    } else if NamedEscape(body[1]).Some? {
      assert all[2..] == body[2..] + ['"'] + rest;
      LiteralEnds(body[2..], rest);
    } else {
      var n := 2 + Digits(body[1]);
      HexIsHex(body[2..n]);
      assert all[2..] == body[2..n] + (body[n..] + ['"'] + rest);
      ScanPlain(body[2..n], body[n..] + ['"'] + rest);
      LiteralEnds(body[n..], rest);
    }
  }

  lemma LiteralHead(spelling: string, text: string, rest: string)
    requires Unquote(spelling) == Some(text)
    ensures Head(spelling + rest) == Some((Value(text, true), |spelling|))
  {
    var all, n := spelling + rest, |spelling|;
    var body := spelling[1..n - 1];
    LiteralEnds(body, rest);
    assert spelling == ['"'] + body + ['"'];
    assert all == ['"'] + (body + ['"'] + rest) && all[1..] == body + ['"'] + rest;
    assert all[..n] == spelling;
  }

  lemma OperatorSpelled(text: string, rest: string)
    requires text in {":", "=", "!=", ">", ">=", "<", "<=", "~", "!"} && Ends(Operator(text), rest)
    ensures OperatorAt(text + rest) == text
  {
    var all := text + rest;
    assert all[..|text|] == text && all[0] == text[0];
    if |text| == 1 {
      assert |all| >= 2 ==> all[1] == rest[0];
    } else {
      assert all[1] == text[1];
    }
  }

  /** What spells a token is read as that token. */
  lemma SpelledHead(spelling: string, token: Token, rest: string)
    requires Spells(spelling, token) && Ends(token, rest)
    ensures spelling != "" && !Blank((spelling + rest)[0]) && Head(spelling + rest) == Some((token, |spelling|))
  {
    match token
    case LeftParen =>
    case RightParen =>
    case Operator(text) => OperatorSpelled(text, rest);
    case Value(text, quoted) =>
      if quoted {
        LiteralHead(spelling, text, rest);
      } else {
        forall k | 0 <= k < |text|
          ensures !Boundary(text[k])
        {
          BoundaryIs(text[k]);
        }
        if rest != "" {
          BoundaryIs(rest[0]);
        }
        WordHead(text, rest);
      }
  }

  /** What is read as a token spells it. */
  lemma HeadSpells(s: string)
    requires s != "" && !Blank(s[0]) && Head(s).Some?
    ensures var n := Head(s).value.1; Spells(s[..n], Head(s).value.0) && Ends(Head(s).value.0, s[n..])
  {
    var token, n := Head(s).value.0, Head(s).value.1;
    if token.Value? && !token.quoted {
      WordStops(s);
      forall k | 0 <= k < n
        ensures s[k] !in SEPARATORS
      {
        BoundaryIs(s[k]);
      }
      if n < |s| {
        BoundaryIs(s[n]);
      }
    } else if token.Operator? {
      OperatorEnds(s);
    }
  }

  lemma OperatorEnds(s: string)
    requires OperatorAt(s) != ""
    ensures var text := OperatorAt(s);
            && text in {":", "=", "!=", ">", ">=", "<", "<=", "~", "!"} && s[..|text|] == text
            && Ends(Operator(text), s[|text|..])
  {
    var text := OperatorAt(s);
    assert |s| > |text| ==> s[|text|..][0] == s[|text|];
  }

  // ----- whole texts -----

  lemma {:induction false} TokensBehindBlanks(gap: string, rest: string)
    requires AllIn(gap, BLANKS)
    ensures Tokens(gap + rest) == Tokens(rest)
  {
    if gap == "" {
      assert gap + rest == rest;
    } else {
      BlankIs(gap[0]);
      assert (gap + rest)[1..] == gap[1..] + rest;
      TokensBehindBlanks(gap[1..], rest);
    }
  }

  lemma {:induction false} WrittenRead(pieces: seq<Piece>, tail: string)
    requires WellWritten(pieces, tail)
    ensures Tokens(Written(pieces, tail)) == Some(TokensOf(pieces))
  {
    hide Head, Spells, Ends;
    if pieces == [] {
      TokensBehindBlanks(tail, "");
      assert tail + "" == tail;
    } else {
      var piece, rest := pieces[0], Written(pieces[1..], tail);
      WrittenRead(pieces[1..], tail);
      SpelledHead(piece.spelling, piece.token, rest);
      TokensStep(piece.spelling, rest, piece.token);
      TokensBehindBlanks(piece.gap, piece.spelling + rest);
      assert Written(pieces, tail) == piece.gap + (piece.spelling + rest);
    }
  }

  lemma {:induction false} ReadWritten(s: string) returns (pieces: seq<Piece>, tail: string)
    requires Tokens(s).Some?
    ensures WellWritten(pieces, tail) && Written(pieces, tail) == s && TokensOf(pieces) == Tokens(s).value
    decreases |s|
  {
    hide Head, Spells, Ends;
    if s == "" {
      pieces, tail := [], "";
    } else if Blank(s[0]) {
      BlankIs(s[0]);
      pieces, tail := ReadWritten(s[1..]);
      assert s == [s[0]] + s[1..];
      pieces, tail := BlankBefore(s[0], pieces, tail);
    } else {
      var n := Head(s).value.1;
      HeadSpells(s);
      pieces, tail := ReadWritten(s[n..]);
      assert s == "" + s[..n] + s[n..];
      OneMore(Piece("", s[..n], Head(s).value.0), pieces, tail);
      pieces := [Piece("", s[..n], Head(s).value.0)] + pieces;
    }
  }

  lemma OneMore(piece: Piece, pieces: seq<Piece>, tail: string)
    requires AllIn(piece.gap, BLANKS) && Spells(piece.spelling, piece.token)
    requires Ends(piece.token, Written(pieces, tail)) && WellWritten(pieces, tail)
    ensures WellWritten([piece] + pieces, tail) && TokensOf([piece] + pieces) == [piece.token] + TokensOf(pieces)
    ensures Written([piece] + pieces, tail) == piece.gap + piece.spelling + Written(pieces, tail)
  {
    assert ([piece] + pieces)[1..] == pieces;
  }

  lemma BlankBefore(c: char, pieces: seq<Piece>, tail: string) returns (wider: seq<Piece>, end: string)
    requires c in BLANKS && WellWritten(pieces, tail)
    ensures WellWritten(wider, end) && TokensOf(wider) == TokensOf(pieces)
    ensures Written(wider, end) == [c] + Written(pieces, tail)
  {
    hide Spells, Ends;
    if pieces == [] {
      wider, end := [], [c] + tail;
    } else {
      var first := pieces[0];
      var piece := Piece([c] + first.gap, first.spelling, first.token);
      OneMore(piece, pieces[1..], tail);
      wider, end := [piece] + pieces[1..], tail;
      assert piece.gap + piece.spelling + Written(pieces[1..], tail) == [c] + Written(pieces, tail);
    }
  }

  /** A text is read as the tokens it is written with, and refused when it is not written with any. */
  lemma TokensExactly(s: string, tokens: seq<Token>)
    ensures Tokens(s) == Some(tokens) <==> Reads(s, tokens)
  {
    if Tokens(s) == Some(tokens) {
      var pieces, tail := ReadWritten(s);
    }
    if Reads(s, tokens) {
      var pieces, tail :| WellWritten(pieces, tail) && Written(pieces, tail) == s && TokensOf(pieces) == tokens;
      WrittenRead(pieces, tail);
    }
  }

  // ----- expressions written down -----

  predicate Speakable(t: Token) {
    && (t.Operator? ==> t.text in {":", "=", "!=", ">", ">=", "<", "<=", "~", "!"})
    && (t.Value? && !t.quoted ==> t.text == "and" || t.text == "or")
  }

  function Spelling(t: Token, printable: char -> bool): string {
    match t
    case LeftParen => "("
    case RightParen => ")"
    case Operator(text) => text
    case Value(text, quoted) => if quoted then Quote(text, printable) else text
  }

  /** The tokens with a blank before each but the first. */
  function Spaced(tokens: seq<Token>, gap: string, printable: char -> bool): seq<Piece> {
    if tokens == [] then []
    else [Piece(gap, Spelling(tokens[0], printable), tokens[0])] + Spaced(tokens[1..], " ", printable)
  }

  lemma QuoteSpells(text: string, printable: char -> bool)
    requires NoControls(printable)
    ensures Unquote(Quote(text, printable)) == Some(text)
  {
    UnescapeBody(text, printable);
    var quoted := Quote(text, printable);
    assert quoted[1..|quoted| - 1] == QuoteBody(text, printable);
  }

  lemma SpellsToken(t: Token, printable: char -> bool)
    requires NoControls(printable) && Speakable(t)
    ensures Spells(Spelling(t, printable), t)
  {
    if t.Value? && t.quoted {
      QuoteSpells(t.text, printable);
    }
  }

  lemma {:induction false} SpacedWritten(tokens: seq<Token>, gap: string, printable: char -> bool)
    requires NoControls(printable) && AllIn(gap, BLANKS) && forall k :: 0 <= k < |tokens| ==> Speakable(tokens[k])
    ensures WellWritten(Spaced(tokens, gap, printable), "") && TokensOf(Spaced(tokens, gap, printable)) == tokens
  {
    if tokens != [] {
      SpellsToken(tokens[0], printable);
      hide Spells, Spelling, Speakable;
      var rest := Spaced(tokens[1..], " ", printable);
      SpacedWritten(tokens[1..], " ", printable);
      assert tokens[1..] != [] ==> Written(rest, "")[0] == ' ';
      OneMore(Piece(gap, Spelling(tokens[0], printable), tokens[0]), rest, "");
      assert tokens == [tokens[0]] + tokens[1..];
    }
  }

  function TextOf(tokens: seq<Token>, printable: char -> bool): string { Written(Spaced(tokens, "", printable), "") }

  /** Comparisons with an operator of the language. */
  predicate Sayable(e: Expression) {
    match e
    case Condition(column, operator, value) => operator in COMPARISONS
    case Not(child) => Sayable(child)
    case And(left, right) => Sayable(left) && Sayable(right)
    case Or(left, right) => Sayable(left) && Sayable(right)
  }

  lemma RenderedAnd(left: Expression, right: Expression)
    ensures FilterGrammar.Render(And(left, right)) ==
              [LeftParen] + (FilterGrammar.Render(left) + [Value("and", false)] + FilterGrammar.Render(right))
              + [RightParen]
  {
    var first, word := FilterGrammar.OneUnary(FilterGrammar.TreeOf(left)), Some(Value("and", false));
    var all := FilterGrammar.MoreAnd(first, word, FilterGrammar.TreeOf(right));
    assert FilterGrammar.YieldAnd(first) == FilterGrammar.Render(left);
    assert FilterGrammar.YieldOr(FilterGrammar.OneAnd(all)) == FilterGrammar.YieldAnd(all);
  }

  lemma RenderedOr(left: Expression, right: Expression)
    ensures FilterGrammar.Render(Or(left, right)) ==
              [LeftParen] + (FilterGrammar.Render(left) + [Value("or", false)] + FilterGrammar.Render(right))
              + [RightParen]
  {
    var first := FilterGrammar.OneUnary(FilterGrammar.TreeOf(left));
    var last := FilterGrammar.OneUnary(FilterGrammar.TreeOf(right));
    var all := FilterGrammar.MoreOr(FilterGrammar.OneAnd(first), Value("or", false), last);
    assert FilterGrammar.YieldAnd(first) == FilterGrammar.Render(left);
    assert FilterGrammar.YieldAnd(last) == FilterGrammar.Render(right);
    assert FilterGrammar.YieldOr(FilterGrammar.OneAnd(first)) == FilterGrammar.Render(left);
    assert FilterGrammar.YieldOr(all) ==
           FilterGrammar.Render(left) + [Value("or", false)] + FilterGrammar.Render(right);
  }

  lemma {:induction false} RenderSpeakable(e: Expression)
    requires Sayable(e)
    ensures FilterGrammar.Renderable(e)
    ensures var tokens := FilterGrammar.Render(e);
            tokens != [] && forall k :: 0 <= k < |tokens| ==> Speakable(tokens[k])
  {
    match e
    case Condition(column, operator, value) =>
    case Not(child) => RenderSpeakable(child);
    case And(left, right) =>
      RenderSpeakable(left);
      RenderSpeakable(right);
      RenderedAnd(left, right);
    case Or(left, right) =>
      RenderSpeakable(left);
      RenderSpeakable(right);
      RenderedOr(left, right);
  }

  // ----- filters -----

  /** A filter means e exactly when it is written with the tokens of a derivation that means e. */
  lemma FilterExactly(s: string, e: Expression)
    ensures Parsed(s) == Some(Some(e)) <==>
              exists t :: FilterGrammar.DerivesOr(t, true) && FilterGrammar.MeaningOr(t) == e
                          && Reads(Text.Trim(s), FilterGrammar.YieldOr(t))
  {
    var source := Text.Trim(s);
    if Parsed(s) == Some(Some(e)) {
      var tokens := Tokens(source).value;
      var t := FilterGrammar.OrDerived(tokens, 0);
      TokensExactly(source, tokens);
    }
    if t :| FilterGrammar.DerivesOr(t, true) && FilterGrammar.MeaningOr(t) == e
            && Reads(source, FilterGrammar.YieldOr(t)) {
      TokensExactly(source, FilterGrammar.YieldOr(t));
      FilterGrammar.DerivedParsed(t);
    }
  }

  // ----- reading back -----

  lemma {:induction false} TrimAround(before: string, core: string, after: string)
    requires core != "" && Text.Trimmed(core)
    requires forall k :: 0 <= k < |before| ==> Text.IsSpace(before[k])
    requires forall k :: 0 <= k < |after| ==> Text.IsSpace(after[k])
    ensures Text.Trim(before + core + after) == core
  {
    if before != "" {
      assert (before + core + after)[1..] == before[1..] + core + after;
      TrimAround(before[1..], core, after);
    } else if after != "" {
      var all, init := before + core + after, core + after[..|after| - 1];
      assert all[..|all| - 1] == init && init[0] == core[0];
      assert init == before + core + after[..|after| - 1];
      assert Text.TrimLeft(all) == all && Text.TrimLeft(init) == init;
      TrimAround(before, core, after[..|after| - 1]);
    } else {
      assert before + core + after == core;
      Text.TrimmedStays(core);
    }
  }

  lemma {:induction false} TextEnds(tokens: seq<Token>, gap: string, printable: char -> bool)
    requires tokens != [] && forall k :: 0 <= k < |tokens| ==> Spelling(tokens[k], printable) != ""
    ensures var s := Written(Spaced(tokens, gap, printable), "");
            var last := Spelling(tokens[|tokens| - 1], printable);
            s != "" && s[|s| - 1] == last[|last| - 1]
  {
    var rest := Spaced(tokens[1..], " ", printable);
    assert Spaced(tokens, gap, printable)[1..] == rest;
    if |tokens| > 1 {
      TextEnds(tokens[1..], " ", printable);
    }
  }

  lemma SpellingEdges(t: Token, printable: char -> bool)
    requires Speakable(t)
    ensures var s := Spelling(t, printable); s != "" && !Text.IsSpace(s[0]) && !Text.IsSpace(s[|s| - 1])
  {
  }

  lemma RenderedTrimmed(e: Expression, printable: char -> bool)
    requires NoControls(printable) && Sayable(e)
    ensures var s := TextOf(FilterGrammar.Render(e), printable); s != "" && Text.Trimmed(s)
  {
    hide FilterGrammar.Render, Sayable, Speakable, Spelling, Plain, Text.IsSpace;
    var tokens := FilterGrammar.Render(e);
    RenderSpeakable(e);
    forall k | 0 <= k < |tokens|
      ensures Spelling(tokens[k], printable) != ""
    {
      SpellingEdges(tokens[k], printable);
    }
    TextEnds(tokens, "", printable);
    SpellingEdges(tokens[0], printable);
    SpellingEdges(tokens[|tokens| - 1], printable);
    var s, first := TextOf(tokens, printable), Spelling(tokens[0], printable);
    assert s[0] == first[0];
  }

  /** An expression written out, in any white space, is parsed back to it. */
  lemma ExpressionReadBack(e: Expression, before: string, after: string, printable: char -> bool)
    requires NoControls(printable) && Sayable(e)
    requires forall k :: 0 <= k < |before| ==> Text.IsSpace(before[k])
    requires forall k :: 0 <= k < |after| ==> Text.IsSpace(after[k])
    ensures Parsed(before + TextOf(FilterGrammar.Render(e), printable) + after) == Some(Some(e))
  {
    var tokens := FilterGrammar.Render(e);
    RenderSpeakable(e);
    RenderedTrimmed(e, printable);
    TrimAround(before, TextOf(tokens, printable), after);
    SpacedWritten(tokens, "", printable);
    WrittenRead(Spaced(tokens, "", printable), "");
    FilterGrammar.RenderedParses(e);
  }
}
