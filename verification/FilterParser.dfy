/** The recursive descent parser of the filter language, over a list of tokens. */
module FilterParser {
  import opened Common
  import Text

  datatype Token = Value(text: string, quoted: bool) | Operator(text: string) | LeftParen | RightParen

  datatype Expression =
    | Condition(column: string, operator: string, value: string)
    | Not(child: Expression)
    | And(left: Expression, right: Expression)
    | Or(left: Expression, right: Expression)

  predicate IsBoolean(text: string) {
    Text.Lower(text) == "and" || Text.Lower(text) == "or" || Text.Lower(text) == "not"
  }

  predicate Keyword(t: Token, word: string) {
    t.Value? && !t.quoted && Text.Lower(t.text) == word
  }

  /** Values, quoted or not, that are no keywords. */
  predicate Plain(t: Token) { t.Value? && (t.quoted || !IsBoolean(t.text)) }

  predicate Bang(t: Token) { t == Operator("!") }

  predicate Comparison(t: Token) { t.Operator? && t.text != "!" }

  predicate KeywordAt(tokens: seq<Token>, i: nat, word: string) {
    i < |tokens| && Keyword(tokens[i], word)
  }

  /** Whether a further conjunct may start here without "and". */
  predicate StartsExpression(tokens: seq<Token>, i: nat) {
    i < |tokens| && (Plain(tokens[i]) || tokens[i] == LeftParen || Bang(tokens[i]))
  }

  // ----- the parser, as a function of the position -----

  datatype Parse = Fail | Done(expression: Expression, next: nat)

  function ParseOr(tokens: seq<Token>, i: nat): (r: Parse)
    ensures r.Done? ==> i < r.next <= |tokens|
    decreases |tokens| - i, 4
  {
    var left := ParseAnd(tokens, i);
    if left.Fail? then Fail else ParseOrRest(tokens, left.next, left.expression)
  }

  function ParseOrRest(tokens: seq<Token>, i: nat, left: Expression): (r: Parse)
    requires i <= |tokens|
    ensures r.Done? ==> i <= r.next <= |tokens|
    decreases |tokens| - i, 4
  {
    if !KeywordAt(tokens, i, "or") then Done(left, i)
    else
      var right := ParseAnd(tokens, i + 1);
      if right.Fail? then Fail else ParseOrRest(tokens, right.next, Or(left, right.expression))
  }

  function ParseAnd(tokens: seq<Token>, i: nat): (r: Parse)
    ensures r.Done? ==> i < r.next <= |tokens|
    decreases |tokens| - i, 3
  {
    var left := ParseUnary(tokens, i);
    if left.Fail? then Fail else ParseAndRest(tokens, left.next, left.expression)
  }

  /** The conjunction ends at "or", a closing parenthesis, and wherever no conjunct starts. */
  predicate AndEnds(tokens: seq<Token>, i: nat) {
    || i >= |tokens| || KeywordAt(tokens, i, "or") || tokens[i] == RightParen
    || (!KeywordAt(tokens, i, "and") && !StartsExpression(tokens, i))
  }

  function ParseAndRest(tokens: seq<Token>, i: nat, left: Expression): (r: Parse)
    requires i <= |tokens|
    ensures r.Done? ==> i <= r.next <= |tokens|
    decreases |tokens| - i, 3
  {
    if AndEnds(tokens, i) then Done(left, i)
    else
      var right := ParseUnary(tokens, if KeywordAt(tokens, i, "and") then i + 1 else i);
      if right.Fail? then Fail else ParseAndRest(tokens, right.next, And(left, right.expression))
  }

  predicate Negates(t: Token) { Keyword(t, "not") || Bang(t) }

  function ParseUnary(tokens: seq<Token>, i: nat): (r: Parse)
    ensures r.Done? ==> i < r.next <= |tokens|
    decreases |tokens| - i, 2
  {
    if i >= |tokens| then Fail
    else if Negates(tokens[i]) then
      var child := ParseUnary(tokens, i + 1);
      if child.Fail? then Fail else Done(Not(child.expression), child.next)
    else if tokens[i] == LeftParen then
      var child := ParseOr(tokens, i + 1);
      if child.Fail? || child.next >= |tokens| || tokens[child.next] != RightParen then Fail
      else Done(child.expression, child.next + 1)
    else ParseCondition(tokens, i)
  }

  function ParseCondition(tokens: seq<Token>, i: nat): (r: Parse)
    requires i < |tokens|
    ensures r.Done? ==> i < r.next <= |tokens|
    decreases |tokens| - i, 1
  {
    if !Plain(tokens[i]) then Fail
    else if i + 1 < |tokens| && Comparison(tokens[i + 1]) then
      if i + 2 < |tokens| && Plain(tokens[i + 2])
      then Done(Condition(tokens[i].text, tokens[i + 1].text, tokens[i + 2].text), i + 3)
      else Fail
    else Done(Condition("text", "~", tokens[i].text), i + 1)
  }

  /** A token list is a filter when it is parsed to its end. */
  function ParseTokens(tokens: seq<Token>): Option<Expression> {
    var r := ParseOr(tokens, 0);
    if r.Done? && r.next == |tokens| then Some(r.expression) else None
  }

  // ----- the parser, as it runs -----

  class Parser {
    const tokens: seq<Token>
    var index: nat

    constructor (tokens: seq<Token>)
      ensures this.tokens == tokens && index == 0
    {
      this.tokens, index := tokens, 0;
    }

    /** The outcome of a method agrees with the function. */
    ghost predicate Agrees(parse: Parse, r: Option<Expression>)
      reads this
    {
      match parse
      case Fail => r.None?
      case Done(e, next) => r == Some(e) && index == next
    }

    method Or() returns (r: Option<Expression>)
      requires index <= |tokens|
      modifies this
      ensures index <= |tokens| && Agrees(ParseOr(tokens, old(index)), r)
      decreases |tokens| - index, 4
    {
      var left := And();
      if left.None? {
        return None;
      }
      r := left;
      while KeywordAt(tokens, index, "or")
        invariant old(index) < index <= |tokens| && r.Some?
        invariant ParseOr(tokens, old(index)) == ParseOrRest(tokens, index, r.value)
        decreases |tokens| - index
      {
        index := index + 1;
        var right := And();
        if right.None? {
          return None;
        }
        r := Some(Expression.Or(r.value, right.value));
      }
    }

    method And() returns (r: Option<Expression>)
      requires index <= |tokens|
      modifies this
      ensures index <= |tokens| && Agrees(ParseAnd(tokens, old(index)), r)
      decreases |tokens| - index, 3
    {
      var left := Unary();
      if left.None? {
        return None;
      }
      r := left;
      while index < |tokens|
        invariant old(index) < index <= |tokens| && r.Some?
        invariant ParseAnd(tokens, old(index)) == ParseAndRest(tokens, index, r.value)
      {
        if KeywordAt(tokens, index, "or") || tokens[index] == RightParen {
          break;
        }
        if KeywordAt(tokens, index, "and") {
          index := index + 1;
        } else if !StartsExpression(tokens, index) {
          break;
        }
        var right := Unary();
        if right.None? {
          return None;
        }
        r := Some(Expression.And(r.value, right.value));
      }
    }

    method Unary() returns (r: Option<Expression>)
      requires index <= |tokens|
      modifies this
      ensures index <= |tokens| && Agrees(ParseUnary(tokens, old(index)), r)
      decreases |tokens| - index, 2
    {
      if index < |tokens| && Negates(tokens[index]) {
        index := index + 1;
        var child := Unary();
        return if child.None? then None else Some(Not(child.value));
      }
      if index >= |tokens| {
        return None;
      }
      if tokens[index] == LeftParen {
        index := index + 1;
        var child := Or();
        if child.None? || index >= |tokens| || tokens[index] != RightParen {
          return None;
        }
        index := index + 1;
        return child;
      }
      r := Compare();
    }

    method Compare() returns (r: Option<Expression>)
      requires index < |tokens|
      modifies this
      ensures index <= |tokens| && Agrees(ParseCondition(tokens, old(index)), r)
      decreases |tokens| - index, 1
    {
      var column := tokens[index];
      if !Plain(column) {
        return None;
      }
      index := index + 1;
      if index < |tokens| && Comparison(tokens[index]) {
        var operator := tokens[index].text;
        index := index + 1;
        if index >= |tokens| || !Plain(tokens[index]) {
          return None;
        }
        var value := tokens[index].text;
        index := index + 1;
        return Some(Condition(column.text, operator, value));
      }
      r := Some(Condition("text", "~", column.text));
    }
  }

  method ParseAll(tokens: seq<Token>) returns (r: Option<Expression>)
    ensures r == ParseTokens(tokens)
  {
    var parser := new Parser(tokens);
    r := parser.Or();
    if r.Some? && parser.index != |tokens| {
      r := None;
    }
  }
}
