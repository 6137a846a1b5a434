/**
  The grammar of the filter language, as derivation trees:

    or    := and ("or" and)*
    and   := unary (["and"] unary)*
    unary := ("not" | "!") unary | "(" or ")" | value | value operator value

  where a conjunct without "and" does not start with the keyword "not".
 */
module FilterGrammar {
  import opened Common
  import opened FilterParser
  import Text

  datatype OrTree = OneAnd(only: AndTree) | MoreOr(init: OrTree, word: Token, last: AndTree)

  datatype AndTree = OneUnary(only: UnaryTree) | MoreAnd(init: AndTree, word: Option<Token>, last: UnaryTree)

  datatype UnaryTree =
    | Negated(mark: Token, child: UnaryTree)
    | Group(inner: OrTree)
    | Bare(value: Token)
    | Compared(column: Token, operator: Token, value: Token)

  // ----- the tokens of a tree -----

  function YieldOr(t: OrTree): seq<Token> {
    match t
    case OneAnd(only) => YieldAnd(only)
    case MoreOr(init, word, last) => YieldOr(init) + [word] + YieldAnd(last)
  }

  function YieldAnd(t: AndTree): seq<Token> {
    match t
    case OneUnary(only) => YieldUnary(only)
    case MoreAnd(init, word, last) => YieldAnd(init) + Word(word) + YieldUnary(last)
  }

  function Word(word: Option<Token>): seq<Token> { if word.Some? then [word.value] else [] }

  function YieldUnary(t: UnaryTree): seq<Token> {
    match t
    case Negated(mark, child) => [mark] + YieldUnary(child)
    case Group(inner) => [LeftParen] + YieldOr(inner) + [RightParen]
    case Bare(value) => [value]
    case Compared(column, operator, value) => [column, operator, value]
  }

  // ----- the meaning of a tree -----

  function MeaningOr(t: OrTree): Expression {
    match t
    case OneAnd(only) => MeaningAnd(only)
    case MoreOr(init, word, last) => Expression.Or(MeaningOr(init), MeaningAnd(last))
  }

  function MeaningAnd(t: AndTree): Expression {
    match t
    case OneUnary(only) => MeaningUnary(only)
    case MoreAnd(init, word, last) => Expression.And(MeaningAnd(init), MeaningUnary(last))
  }

  function MeaningUnary(t: UnaryTree): Expression {
    match t
    case Negated(mark, child) => Not(MeaningUnary(child))
    case Group(inner) => MeaningOr(inner)
    case Bare(value) => Condition("text", "~", if value.Value? then value.text else "")
    case Compared(column, operator, value) =>
      if column.Value? && operator.Operator? && value.Value? then Condition(column.text, operator.text, value.text)
      else Condition("", "", "")
  }

  // ----- the trees of the grammar; strict excludes an implicit conjunct that starts with "not" -----

  predicate DerivesOr(t: OrTree, strict: bool) {
    match t
    case OneAnd(only) => DerivesAnd(only, strict)
    case MoreOr(init, word, last) => DerivesOr(init, strict) && Keyword(word, "or") && DerivesAnd(last, strict)
  }

  predicate DerivesAnd(t: AndTree, strict: bool) {
    match t
    case OneUnary(only) => DerivesUnary(only, strict)
    case MoreAnd(init, word, last) =>
      && DerivesAnd(init, strict) && DerivesUnary(last, strict)
      && (if word.Some? then Keyword(word.value, "and") else strict ==> !StartsWithNot(last))
  }

  predicate StartsWithNot(t: UnaryTree) { t.Negated? && Keyword(t.mark, "not") }

  predicate DerivesUnary(t: UnaryTree, strict: bool) {
    match t
    case Negated(mark, child) => Negates(mark) && DerivesUnary(child, strict)
    case Group(inner) => DerivesOr(inner, strict)
    case Bare(value) => Plain(value)
    case Compared(column, operator, value) => Plain(column) && Comparison(operator) && Plain(value)
  }

  // ----- everything parsed is derived -----

  lemma {:induction false} OrDerived(tokens: seq<Token>, i: nat) returns (t: OrTree)
    requires ParseOr(tokens, i).Done?
    ensures DerivesOr(t, true) && YieldOr(t) == tokens[i..ParseOr(tokens, i).next]
              && MeaningOr(t) == ParseOr(tokens, i).expression
    decreases |tokens| - i, 4
  {
    var left := ParseAnd(tokens, i);
    var only := AndDerived(tokens, i);
    t := OrRestDerived(tokens, i, left.next, OneAnd(only));
  }

  lemma {:induction false} OrRestDerived(tokens: seq<Token>, start: nat, i: nat, init: OrTree) returns (t: OrTree)
    requires start < i <= |tokens| && DerivesOr(init, true) && YieldOr(init) == tokens[start..i]
    requires ParseOrRest(tokens, i, MeaningOr(init)).Done?
    ensures var r := ParseOrRest(tokens, i, MeaningOr(init));
            DerivesOr(t, true) && YieldOr(t) == tokens[start..r.next] && MeaningOr(t) == r.expression
    decreases |tokens| - i, 4
  {
    if !KeywordAt(tokens, i, "or") {
      t := init;
    } else {
      var right := ParseAnd(tokens, i + 1);
      var last := AndDerived(tokens, i + 1);
      var longer := MoreOr(init, tokens[i], last);
      Joined(tokens, start, i, right.next);
      t := OrRestDerived(tokens, start, right.next, longer);
    }
  }

  lemma Joined(tokens: seq<Token>, start: nat, i: nat, end: nat)
    requires start <= i < end <= |tokens|
    ensures tokens[start..i] + [tokens[i]] + tokens[i + 1..end] == tokens[start..end]
    ensures tokens[start..i] + tokens[i..end] == tokens[start..end]
  {
  }

  lemma {:induction false} AndDerived(tokens: seq<Token>, i: nat) returns (t: AndTree)
    requires ParseAnd(tokens, i).Done?
    ensures DerivesAnd(t, true) && YieldAnd(t) == tokens[i..ParseAnd(tokens, i).next]
              && MeaningAnd(t) == ParseAnd(tokens, i).expression
    decreases |tokens| - i, 3
  {
    var left := ParseUnary(tokens, i);
    var only := UnaryDerived(tokens, i);
    t := AndRestDerived(tokens, i, left.next, OneUnary(only));
  }

  lemma {:induction false} AndRestDerived(tokens: seq<Token>, start: nat, i: nat, init: AndTree) returns (t: AndTree)
    requires start < i <= |tokens| && DerivesAnd(init, true) && YieldAnd(init) == tokens[start..i]
    requires ParseAndRest(tokens, i, MeaningAnd(init)).Done?
    ensures var r := ParseAndRest(tokens, i, MeaningAnd(init));
            DerivesAnd(t, true) && YieldAnd(t) == tokens[start..r.next] && MeaningAnd(t) == r.expression
    decreases |tokens| - i, 3
  {
    if AndEnds(tokens, i) {
      t := init;
    } else {
      var spoken := KeywordAt(tokens, i, "and");
      var right := ParseUnary(tokens, if spoken then i + 1 else i);
      var last := UnaryDerived(tokens, if spoken then i + 1 else i);
      var longer := MoreAnd(init, if spoken then Some(tokens[i]) else None, last);
      Joined(tokens, start, i, right.next);
      if !spoken {
        FirstOfUnary(last, tokens, i, right.next);
      }
      t := AndRestDerived(tokens, start, right.next, longer);
    }
  }

  /** A unary that starts with the keyword "not" has it as its first token. */
  lemma FirstOfUnary(t: UnaryTree, tokens: seq<Token>, i: nat, end: nat)
    requires i < end <= |tokens| && YieldUnary(t) == tokens[i..end] && StartsExpression(tokens, i)
    ensures !StartsWithNot(t)
  {
    if t.Negated? {
      assert YieldUnary(t)[0] == tokens[i];
    }
  }

  lemma {:induction false} UnaryDerived(tokens: seq<Token>, i: nat) returns (t: UnaryTree)
    requires ParseUnary(tokens, i).Done?
    ensures DerivesUnary(t, true) && YieldUnary(t) == tokens[i..ParseUnary(tokens, i).next]
    ensures MeaningUnary(t) == ParseUnary(tokens, i).expression
    decreases |tokens| - i, 2
  {
    var end := ParseUnary(tokens, i).next;
    if Negates(tokens[i]) {
      var child := UnaryDerived(tokens, i + 1);
      t := Negated(tokens[i], child);
      assert tokens[i..end] == [tokens[i]] + tokens[i + 1..end];
    } else if tokens[i] == LeftParen {
      var inner := OrDerived(tokens, i + 1);
      t := Group(inner);
      assert tokens[i..end] == [tokens[i]] + tokens[i + 1..end - 1] + [tokens[end - 1]];
    } else if i + 1 < |tokens| && Comparison(tokens[i + 1]) {
      t := Compared(tokens[i], tokens[i + 1], tokens[i + 2]);
    } else {
      t := Bare(tokens[i]);
    }
  }

  // ----- everything derived is parsed -----

  ghost predicate Here(tokens: seq<Token>, i: nat, part: seq<Token>) {
    i + |part| <= |tokens| && tokens[i..i + |part|] == part
  }

  lemma HereSplits(tokens: seq<Token>, i: nat, a: seq<Token>, b: seq<Token>)
    requires Here(tokens, i, a + b)
    ensures Here(tokens, i, a) && Here(tokens, i + |a|, b)
  {
    assert tokens[i..i + |a + b|][..|a|] == a;
    assert tokens[i..i + |a + b|][|a|..] == b;
  }

  lemma HereAt(tokens: seq<Token>, i: nat, part: seq<Token>, k: nat)
    requires Here(tokens, i, part) && k < |part|
    ensures tokens[i + k] == part[k]
  {
    assert tokens[i..i + |part|][k] == part[k];
  }

  /** No comparison follows, so that a bare value is complete. */
  predicate NoComparison(tokens: seq<Token>, i: nat) {
    i < |tokens| ==> !Comparison(tokens[i])
  }

  /** The tokens an operand can start with. */
  lemma {:induction false} FirstOfAnd(t: AndTree, strict: bool)
    requires DerivesAnd(t, strict)
    ensures YieldAnd(t) != [] && OpensOperand(YieldAnd(t)[0])
  {
    if t.OneUnary? {
      FirstToken(t.only, strict);
    } else {
      FirstOfAnd(t.init, strict);
    }
  }

  predicate OpensOperand(t: Token) { Negates(t) || t == LeftParen || Plain(t) }

  lemma FirstToken(t: UnaryTree, strict: bool)
    requires DerivesUnary(t, strict)
    ensures YieldUnary(t) != [] && OpensOperand(YieldUnary(t)[0])
    ensures Keyword(YieldUnary(t)[0], "not") <==> StartsWithNot(t)
  {
  }

  lemma {:induction false} UnaryParsed(t: UnaryTree, tokens: seq<Token>, i: nat, end: nat)
    requires DerivesUnary(t, true) && Here(tokens, i, YieldUnary(t)) && end == i + |YieldUnary(t)|
               && NoComparison(tokens, end)
    ensures ParseUnary(tokens, i) == Done(MeaningUnary(t), end)
    decreases t
  {
    FirstToken(t, true);
    HereAt(tokens, i, YieldUnary(t), 0);
    match t
    case Negated(mark, child) =>
      HereSplits(tokens, i, [mark], YieldUnary(child));
      UnaryParsed(child, tokens, i + 1, end);
    case Group(inner) =>
      GroupHere(inner, tokens, i, end);
      OrParsed(inner, tokens, i + 1, end - 1);
    case Bare(value) =>
    case Compared(column, operator, value) =>
      HereAt(tokens, i, YieldUnary(t), 1);
      HereAt(tokens, i, YieldUnary(t), 2);
  }

  lemma GroupHere(inner: OrTree, tokens: seq<Token>, i: nat, end: nat)
    requires Here(tokens, i, [LeftParen] + YieldOr(inner) + [RightParen]) && end == i + |YieldOr(inner)| + 2
    ensures Here(tokens, i + 1, YieldOr(inner)) && tokens[end - 1] == RightParen
  {
    HereSplits(tokens, i, [LeftParen] + YieldOr(inner), [RightParen]);
    HereSplits(tokens, i, [LeftParen], YieldOr(inner));
    HereAt(tokens, end - 1, [RightParen], 0);
  }

  /** A conjunct with "and", or one that does not start with "not", goes on with the conjunction. */
  lemma ConjunctGoesOn(tokens: seq<Token>, j: nat, word: Option<Token>, last: UnaryTree)
    requires DerivesUnary(last, true) && Here(tokens, j, Word(word) + YieldUnary(last))
    requires if word.Some? then Keyword(word.value, "and") else !StartsWithNot(last)
    ensures j < |tokens| && !AndEnds(tokens, j) && NoComparison(tokens, j)
    ensures KeywordAt(tokens, j, "and") <==> word.Some?
    ensures Here(tokens, j + |Word(word)|, YieldUnary(last))
  {
    HereSplits(tokens, j, Word(word), YieldUnary(last));
    FirstToken(last, true);
    HereAt(tokens, j + |Word(word)|, YieldUnary(last), 0);
    if word.Some? {
      HereAt(tokens, j, Word(word), 0);
    }
  }

  lemma ConjunctParsed(tokens: seq<Token>, j: nat, left: Expression, word: Option<Token>, right: Expression, end: nat)
    requires j < |tokens| && !AndEnds(tokens, j) && end <= |tokens| && (KeywordAt(tokens, j, "and") <==> word.Some?)
    requires ParseUnary(tokens, j + |Word(word)|) == Done(right, end)
    ensures ParseAndRest(tokens, j, left) == ParseAndRest(tokens, end, Expression.And(left, right))
  {
  }

  lemma {:induction false} AndParsed(t: AndTree, tokens: seq<Token>, i: nat, end: nat)
    requires DerivesAnd(t, true) && Here(tokens, i, YieldAnd(t)) && end == i + |YieldAnd(t)|
               && NoComparison(tokens, end)
    ensures end <= |tokens| && ParseAnd(tokens, i) == ParseAndRest(tokens, end, MeaningAnd(t))
    decreases t
  {
    match t
    case OneUnary(only) =>
      UnaryParsed(only, tokens, i, end);
    case MoreAnd(init, word, last) =>
      var j := i + |YieldAnd(init)|;
      AndHere(init, word, last, tokens, i, j, end);
      ConjunctGoesOn(tokens, j, word, last);
      AndParsed(init, tokens, i, j);
      UnaryParsed(last, tokens, j + |Word(word)|, end);
      ConjunctParsed(tokens, j, MeaningAnd(init), word, MeaningUnary(last), end);
  }

  lemma AndHere(init: AndTree, word: Option<Token>, last: UnaryTree, tokens: seq<Token>, i: nat, j: nat, end: nat)
    requires Here(tokens, i, YieldAnd(MoreAnd(init, word, last)))
    requires j == i + |YieldAnd(init)| && end == i + |YieldAnd(MoreAnd(init, word, last))|
    ensures Here(tokens, i, YieldAnd(init)) && Here(tokens, j, Word(word) + YieldUnary(last))
    ensures end == j + |Word(word)| + |YieldUnary(last)|
  {
    assert YieldAnd(MoreAnd(init, word, last)) == YieldAnd(init) + (Word(word) + YieldUnary(last));
    HereSplits(tokens, i, YieldAnd(init), Word(word) + YieldUnary(last));
  }

  lemma OrWordStops(tokens: seq<Token>, j: nat, word: Token)
    requires j < |tokens| && tokens[j] == word && Keyword(word, "or")
    ensures NoComparison(tokens, j) && AndEnds(tokens, j) && KeywordAt(tokens, j, "or")
  {
  }

  lemma OrHere(init: OrTree, word: Token, last: AndTree, tokens: seq<Token>, i: nat, j: nat, end: nat)
    requires Here(tokens, i, YieldOr(MoreOr(init, word, last)))
    requires j == i + |YieldOr(init)| && end == i + |YieldOr(MoreOr(init, word, last))|
    ensures Here(tokens, i, YieldOr(init)) && j < |tokens| && tokens[j] == word && Here(tokens, j + 1, YieldAnd(last))
    ensures end == j + 1 + |YieldAnd(last)|
  {
    HereSplits(tokens, i, YieldOr(init) + [word], YieldAnd(last));
    HereSplits(tokens, i, YieldOr(init), [word]);
    HereAt(tokens, j, [word], 0);
  }

  lemma DisjunctParsed(tokens: seq<Token>, j: nat, left: Expression, right: Expression, end: nat)
    requires KeywordAt(tokens, j, "or") && end <= |tokens| && AndEnds(tokens, end)
    requires ParseAnd(tokens, j + 1) == ParseAndRest(tokens, end, right)
    ensures ParseOrRest(tokens, j, left) == ParseOrRest(tokens, end, Expression.Or(left, right))
  {
  }

  lemma {:induction false} OrParsed(t: OrTree, tokens: seq<Token>, i: nat, end: nat)
    requires DerivesOr(t, true) && Here(tokens, i, YieldOr(t))
    requires end == i + |YieldOr(t)| && NoComparison(tokens, end) && AndEnds(tokens, end)
    ensures end <= |tokens| && ParseOr(tokens, i) == ParseOrRest(tokens, end, MeaningOr(t))
    decreases t
  {
    match t
    case OneAnd(only) =>
      AndParsed(only, tokens, i, end);
    case MoreOr(init, word, last) =>
      var j := i + |YieldOr(init)|;
      OrHere(init, word, last, tokens, i, j, end);
      OrWordStops(tokens, j, word);
      OrParsed(init, tokens, i, j);
      AndParsed(last, tokens, j + 1, end);
      DisjunctParsed(tokens, j, MeaningOr(init), MeaningAnd(last), end);
  }

  /** The tokens of a tree are parsed to the tree's meaning. */
  lemma DerivedParsed(t: OrTree)
    requires DerivesOr(t, true)
    ensures ParseTokens(YieldOr(t)) == Some(MeaningOr(t))
  {
    OrParsed(t, YieldOr(t), 0, |YieldOr(t)|);
  }

  /** The parser recognizes exactly the grammar. */
  lemma ParserRecognizes(tokens: seq<Token>)
    ensures ParseTokens(tokens).Some? <==> exists t :: DerivesOr(t, true) && YieldOr(t) == tokens
  {
    if ParseTokens(tokens).Some? {
      var t := OrDerived(tokens, 0);
      assert DerivesOr(t, true) && YieldOr(t) == tokens;
    }
    if t :| DerivesOr(t, true) && YieldOr(t) == tokens {
      DerivedParsed(t);
    }
  }

  /** The grammar gives every token list at most one meaning. */
  lemma OneMeaning(a: OrTree, b: OrTree)
    requires DerivesOr(a, true) && DerivesOr(b, true) && YieldOr(a) == YieldOr(b)
    ensures MeaningOr(a) == MeaningOr(b)
  {
    DerivedParsed(a);
    DerivedParsed(b);
  }

  // ----- conjuncts that start with "not" -----

  /** The tokens an operand can end with. */
  predicate ClosesOperand(t: Token) { Plain(t) || t == RightParen }

  /** No keyword "not" directly behind an operand. */
  ghost predicate NotApart(tokens: seq<Token>) {
    forall k :: 0 < k < |tokens| ==> !(Keyword(tokens[k], "not") && ClosesOperand(tokens[k - 1]))
  }

  lemma NotApartJoins(a: seq<Token>, b: seq<Token>)
    requires a != [] && b != []
    ensures NotApart(a + b) <==>
              NotApart(a) && NotApart(b) && !(Keyword(b[0], "not") && ClosesOperand(a[|a| - 1]))
  {
    var all := a + b;
    if NotApart(all) {
      forall k | 0 < k < |a|
        ensures !(Keyword(a[k], "not") && ClosesOperand(a[k - 1]))
      {
        assert a[k] == all[k] && a[k - 1] == all[k - 1];
      }
      forall k | 0 < k < |b|
        ensures !(Keyword(b[k], "not") && ClosesOperand(b[k - 1]))
      {
        assert b[k] == all[|a| + k] && b[k - 1] == all[|a| + k - 1];
      }
      assert all[|a|] == b[0] && all[|a| - 1] == a[|a| - 1];
    }
  }

  lemma {:induction false} LastOfUnary(t: UnaryTree, strict: bool)
    requires DerivesUnary(t, strict)
    ensures YieldUnary(t) != [] && ClosesOperand(YieldUnary(t)[|YieldUnary(t)| - 1])
  {
    if t.Negated? {
      LastOfUnary(t.child, strict);
    }
  }

  lemma LastOfAnd(t: AndTree, strict: bool)
    requires DerivesAnd(t, strict)
    ensures YieldAnd(t) != [] && ClosesOperand(YieldAnd(t)[|YieldAnd(t)| - 1])
  {
    LastOfUnary(if t.OneUnary? then t.only else t.last, strict);
  }

  lemma LastOfOr(t: OrTree, strict: bool)
    requires DerivesOr(t, strict)
    ensures YieldOr(t) != [] && ClosesOperand(YieldOr(t)[|YieldOr(t)| - 1])
  {
    LastOfAnd(if t.OneAnd? then t.only else t.last, strict);
  }

  lemma {:induction false} FirstOfOr(t: OrTree, strict: bool)
    requires DerivesOr(t, strict)
    ensures YieldOr(t) != [] && OpensOperand(YieldOr(t)[0])
  {
    if t.OneAnd? {
      FirstOfAnd(t.only, strict);
    } else {
      FirstOfOr(t.init, strict);
    }
  }

  /** A tree is strict exactly when its tokens keep "not" apart from operands. */
  lemma {:induction false} StrictUnary(t: UnaryTree)
    requires DerivesUnary(t, false)
    ensures DerivesUnary(t, true) <==> NotApart(YieldUnary(t))
    decreases t
  {
    match t
    case Negated(mark, child) =>
      StrictUnary(child);
      FirstToken(child, false);
      NotApartJoins([mark], YieldUnary(child));
    case Group(inner) =>
      StrictOr(inner);
      FirstOfOr(inner, false);
      NotApartJoins([LeftParen], YieldOr(inner));
      NotApartJoins([LeftParen] + YieldOr(inner), [RightParen]);
    case Bare(value) =>
    case Compared(column, operator, value) =>
  }

  lemma {:induction false} StrictAnd(t: AndTree)
    requires DerivesAnd(t, false)
    ensures DerivesAnd(t, true) <==> NotApart(YieldAnd(t))
    decreases t
  {
    match t
    case OneUnary(only) =>
      StrictUnary(only);
    case MoreAnd(init, word, last) =>
      StrictAnd(init);
      StrictUnary(last);
      LastOfAnd(init, false);
      FirstToken(last, false);
      if word.Some? {
        NotApartJoins(YieldAnd(init), [word.value]);
        NotApartJoins(YieldAnd(init) + [word.value], YieldUnary(last));
      } else {
        assert YieldAnd(init) + Word(word) == YieldAnd(init);
        NotApartJoins(YieldAnd(init), YieldUnary(last));
      }
  }

  lemma {:induction false} StrictOr(t: OrTree)
    requires DerivesOr(t, false)
    ensures DerivesOr(t, true) <==> NotApart(YieldOr(t))
    decreases t
  {
    match t
    case OneAnd(only) =>
      StrictAnd(only);
    case MoreOr(init, word, last) =>
      StrictOr(init);
      StrictAnd(last);
      LastOfOr(init, false);
      FirstOfAnd(last, false);
      NotApartJoins(YieldOr(init), [word]);
      NotApartJoins(YieldOr(init) + [word], YieldAnd(last));
  }

  /**
    Of the token lists of the grammar without the restriction, the parser accepts exactly those in
    which no keyword "not" directly follows an operand.
   */
  lemma DocumentedGrammar(t: OrTree)
    requires DerivesOr(t, false)
    ensures ParseTokens(YieldOr(t)).Some? <==> NotApart(YieldOr(t))
  {
    StrictOr(t);
    if NotApart(YieldOr(t)) {
      DerivedParsed(t);
    }
    if ParseTokens(YieldOr(t)).Some? {
      var s := OrDerived(YieldOr(t), 0);
      StrictIsLooseOr(s);
      StrictOr(s);
    }
  }

  lemma {:induction false} StrictIsLooseOr(t: OrTree)
    requires DerivesOr(t, true)
    ensures DerivesOr(t, false)
    decreases t
  {
    if t.OneAnd? {
      StrictIsLooseAnd(t.only);
    } else {
      StrictIsLooseOr(t.init);
      StrictIsLooseAnd(t.last);
    }
  }

  lemma {:induction false} StrictIsLooseAnd(t: AndTree)
    requires DerivesAnd(t, true)
    ensures DerivesAnd(t, false)
    decreases t
  {
    if t.OneUnary? {
      StrictIsLooseUnary(t.only);
    } else {
      StrictIsLooseAnd(t.init);
      StrictIsLooseUnary(t.last);
    }
  }

  lemma {:induction false} StrictIsLooseUnary(t: UnaryTree)
    requires DerivesUnary(t, true)
    ensures DerivesUnary(t, false)
    decreases t
  {
    match t
    case Negated(mark, child) => StrictIsLooseUnary(child);
    case Group(inner) => StrictIsLooseOr(inner);
    case Bare(value) =>
    case Compared(column, operator, value) =>
  }

  lemma LowerIsLower()
    ensures Text.Lower("a") == "a" && Text.Lower("b") == "b" && Text.Lower("not") == "not"
    ensures Text.Lower("and") == "and" && Text.Lower("or") == "or"
  {
  }

  function Juxtaposed(a: Token, word: Token, b: Token): OrTree {
    OneAnd(MoreAnd(OneUnary(Bare(a)), None, Negated(word, Bare(b))))
  }

  lemma ImplicitNotRejected(a: Token, word: Token, b: Token)
    requires Plain(a) && Keyword(word, "not") && Plain(b)
    ensures DerivesOr(Juxtaposed(a, word, b), false) && YieldOr(Juxtaposed(a, word, b)) == [a, word, b]
    ensures ParseTokens([a, word, b]) == None
  {
    var t := Juxtaposed(a, word, b);
    var first, second := OneUnary(Bare(a)), Negated(word, Bare(b));
    assert YieldAnd(first) == [a] && DerivesAnd(first, false);
    assert YieldUnary(Bare(b)) == [b] && YieldUnary(second) == [word, b] && DerivesUnary(second, false);
    assert t.only == MoreAnd(first, None, second) && YieldAnd(t.only) == [a, word, b] && DerivesAnd(t.only, false);
    DocumentedGrammar(t);
    assert [a, word, b][0] == a && [a, word, b][1] == word;
  }

  /** "a not b" is derived without the restriction, and rejected. */
  lemma ANotBRejected()
    ensures var tokens := [Value("a", false), Value("not", false), Value("b", false)];
            (exists t :: DerivesOr(t, false) && YieldOr(t) == tokens) && ParseTokens(tokens) == None
  {
    LowerIsLower();
    ImplicitNotRejected(Value("a", false), Value("not", false), Value("b", false));
  }

  // ----- how filters bind -----

  /** A value alone asks for a text that contains it. */
  function Contains(t: Token): Expression
    requires t.Value?
  {
    Condition("text", "~", t.text)
  }

  const OR := Value("or", false)
  const AND := Value("and", false)
  const NOT := Value("not", false)

  lemma BareTree(a: Token)
    requires Plain(a)
    ensures var u := Bare(a);
            && DerivesUnary(u, true) && YieldUnary(u) == [a] && MeaningUnary(u) == Contains(a)
            && DerivesAnd(OneUnary(u), true) && YieldAnd(OneUnary(u)) == [a] && MeaningAnd(OneUnary(u)) == Contains(a)
            && DerivesOr(OneAnd(OneUnary(u)), true) && YieldOr(OneAnd(OneUnary(u))) == [a]
            && MeaningOr(OneAnd(OneUnary(u))) == Contains(a)
  {
    var u := Bare(a);
    assert YieldUnary(u) == [a] && MeaningUnary(u) == Contains(a);
    assert YieldAnd(OneUnary(u)) == YieldUnary(u) && MeaningAnd(OneUnary(u)) == MeaningUnary(u);
    assert DerivesAnd(OneUnary(u), true);
  }

  /** A single value is the filter for the texts that contain it. */
  lemma BareParsed(a: Token)
    requires Plain(a)
    ensures ParseTokens([a]) == Some(Contains(a))
  {
    BareTree(a);
    DerivedParsed(OneAnd(OneUnary(Bare(a))));
  }

  /** "and", written or not, binds more tightly than "or". */
  lemma AndBindsTighter(a: Token, b: Token, c: Token)
    requires Plain(a) && Plain(b) && Plain(c)
    ensures ParseTokens([a, OR, b, AND, c]) == Some(Or(Contains(a), And(Contains(b), Contains(c))))
    ensures ParseTokens([a, OR, b, c]) == Some(Or(Contains(a), And(Contains(b), Contains(c))))
  {
    LowerIsLower();
    BareTree(a);
    BareTree(b);
    BareTree(c);
    var left, first := OneAnd(OneUnary(Bare(a))), OneUnary(Bare(b));
    var said, unsaid := MoreAnd(first, Some(AND), Bare(c)), MoreAnd(first, None, Bare(c));
    assert YieldAnd(said) == [b, AND, c] && MeaningAnd(said) == And(Contains(b), Contains(c));
    assert YieldAnd(unsaid) == [b, c] && MeaningAnd(unsaid) == And(Contains(b), Contains(c));
    DerivedParsed(MoreOr(left, OR, said));
    DerivedParsed(MoreOr(left, OR, unsaid));
    assert [a] + [OR] + [b, AND, c] == [a, OR, b, AND, c] && [a] + [OR] + [b, c] == [a, OR, b, c];
  }

  /** "not" binds most tightly, and operators of one kind bind from the left. */
  lemma NotBindsTightest(a: Token, b: Token, c: Token)
    requires Plain(a) && Plain(b) && Plain(c)
    ensures ParseTokens([NOT, a, AND, b]) == Some(And(Not(Contains(a)), Contains(b)))
    ensures ParseTokens([a, OR, b, OR, c]) == Some(Or(Or(Contains(a), Contains(b)), Contains(c)))
  {
    LowerIsLower();
    BareTree(a);
    BareTree(b);
    BareTree(c);
    var not := Negated(NOT, Bare(a));
    assert YieldUnary(not) == [NOT] + [a] && MeaningUnary(not) == Not(Contains(a)) && DerivesUnary(not, true);
    var negated := OneUnary(not);
    assert YieldAnd(negated) == [NOT] + [a] && MeaningAnd(negated) == Not(Contains(a)) && DerivesAnd(negated, true);
    var both := MoreAnd(negated, Some(AND), Bare(b));
    assert YieldAnd(both) == [NOT, a, AND, b] && DerivesAnd(both, true);
    assert MeaningAnd(both) == And(Not(Contains(a)), Contains(b));
    DerivedParsed(OneAnd(both));
    var one := OneAnd(OneUnary(Bare(a)));
    var two := MoreOr(one, OR, OneUnary(Bare(b)));
    assert YieldOr(two) == [a, OR, b] && MeaningOr(two) == Or(Contains(a), Contains(b)) && DerivesOr(two, true);
    DerivedParsed(MoreOr(two, OR, OneUnary(Bare(c))));
    assert [a, OR, b] + [OR] + [c] == [a, OR, b, OR, c];
  }

  // ----- rendering -----

  /** Comparisons never use the negation mark as their operator. */
  predicate Renderable(e: Expression) {
    match e
    case Condition(column, operator, value) => operator != "!"
    case Not(child) => Renderable(child)
    case And(left, right) => Renderable(left) && Renderable(right)
    case Or(left, right) => Renderable(left) && Renderable(right)
  }

  /** The fully parenthesized tree of an expression. */
  function TreeOf(e: Expression): UnaryTree {
    match e
    case Condition(column, operator, value) => Compared(Value(column, true), Operator(operator), Value(value, true))
    case Not(child) => Negated(Operator("!"), TreeOf(child))
    case And(left, right) => Group(OneAnd(MoreAnd(OneUnary(TreeOf(left)), Some(Value("and", false)), TreeOf(right))))
    case Or(left, right) => Group(MoreOr(OneAnd(OneUnary(TreeOf(left))), Value("or", false), OneUnary(TreeOf(right))))
  }

  function Render(e: Expression): seq<Token> { YieldUnary(TreeOf(e)) }

  lemma {:induction false} RenderedTree(e: Expression)
    requires Renderable(e)
    ensures DerivesUnary(TreeOf(e), true) && MeaningUnary(TreeOf(e)) == e
  {
    LowerIsLower();
    match e
    case Condition(column, operator, value) =>
    case Not(child) => RenderedTree(child);
    case And(left, right) =>
      RenderedTree(left);
      RenderedTree(right);
      var conjunction := MoreAnd(OneUnary(TreeOf(left)), Some(Value("and", false)), TreeOf(right));
      assert MeaningAnd(OneUnary(TreeOf(left))) == left && DerivesAnd(OneUnary(TreeOf(left)), true);
      assert DerivesAnd(conjunction, true) && MeaningAnd(conjunction) == e;
      assert DerivesOr(OneAnd(conjunction), true) && MeaningOr(OneAnd(conjunction)) == e;
    case Or(left, right) =>
      RenderedTree(left);
      RenderedTree(right);
      var init, last := OneAnd(OneUnary(TreeOf(left))), OneUnary(TreeOf(right));
      assert DerivesOr(init, true) && MeaningOr(init) == left;
      assert DerivesAnd(last, true) && MeaningAnd(last) == right;
      assert DerivesOr(MoreOr(init, Value("or", false), last), true);
  }

  /** The rendering of an expression is parsed back to it. */
  lemma RenderedParses(e: Expression)
    requires Renderable(e)
    ensures ParseTokens(Render(e)) == Some(e)
  {
    RenderedTree(e);
    DerivedParsed(OneAnd(OneUnary(TreeOf(e))));
  }
}
