/**
 * The Hawk parser: recursive descent over the token list with an index cursor.
 * The precedence ladder, loosest first, is or, and, equality, comparison, term
 * (`+ -`), factor (`* /`), power (`^`), uncertainty (`±`), then unary and
 * primary; every binary level is left-associative.
 *
 * The parser has no error path of its own: a missing token is an indexing panic,
 * a malformed construct is an explicit panic, and a statement that consumes no
 * token makes the statement loop repeat it forever. All three are `Stop`
 * outcomes here. A parse result pairs the tree with the cursor after it.
 */
module Parsing {
  import opened Outcomes
  import opened Common

  /** Level 8 of the ladder is `unary`; levels 0 to 7 are the binary levels. */
  const UNARY_LEVEL: nat := 8

  /** The operator tokens each binary level accepts. */
  function Operators(level: nat): set<TokenType>
  {
    match level
    case 0 => {TokenType.Or}
    case 1 => {TokenType.And}
    case 2 => {TokenType.EqualEqual, TokenType.NotEqual}
    case 3 => {TokenType.LessThan, TokenType.LessThanEqual, TokenType.GreaterThan, TokenType.GreaterThanEqual}
    case 4 => {TokenType.Minus, TokenType.Plus}
    case 5 => {TokenType.Slash, TokenType.Asterisk}
    case 6 => {TokenType.Caret}
    case 7 => {TokenType.PlusMinus}
    case _ => {}
  }

  /** The token types `primary` reads as a literal, a call, an index or a method call. */
  const LITERAL_TOKENS: set<TokenType> :=
    {TokenType.Int, TokenType.Float, TokenType.True, TokenType.False, TokenType.String, TokenType.Identifier}

  /** Cursor distance to the end, the first component of every measure. */
  function Remaining(ts: seq<Token>, i: nat): nat
  {
    if i < |ts| then |ts| - i else 0
  }

  /** The name a token carries when its literal is an identifier. */
  function IdentifierOf(t: Token): Option<string>
  {
    match t.literal
    case Some(Identifier(x)) => Some(x)
    case _ => None
  }

  /** A method's outcome and the cursor it leaves, in the shape of a parse result. */
  function WithIndex<T>(r: Result<T>, index: nat): Result<(T, nat)>
  {
    if r.Ok? then Ok((r.value, index)) else r.PropagateFailure()
  }

  /**
   * The binary level `level` from cursor `i` (level 8 is `unary`): the operand
   * of the next level, then the left-associative tail of this level's operators.
   */
  function Expr(ts: seq<Token>, i: nat, level: nat): (r: Result<(Expression, nat)>)
    requires level <= UNARY_LEVEL
    ensures r.Ok? ==> i < |ts| && i <= r.value.1
    decreases Remaining(ts, i), 2 * (UNARY_LEVEL - level) + 3
  {
    if level == UNARY_LEVEL then UnaryAt(ts, i)
    else
      var first := Expr(ts, i, level + 1);
      if !first.Ok? then first
      else LevelRest(ts, level, first.value.0, first.value.1)
  }

  /** The `while` loop of a binary level: while the current token is one of its operators, fold in one more operand. */
  function LevelRest(ts: seq<Token>, level: nat, left: Expression, j: nat): (r: Result<(Expression, nat)>)
    requires level < UNARY_LEVEL
    ensures r.Ok? ==> j < |ts| && j <= r.value.1
    decreases Remaining(ts, j), 2 * (UNARY_LEVEL - level) + 2
  {
    if j >= |ts| then Panic(OUT_OF_BOUNDS)
    else if ts[j].tokenType in Operators(level) then
      var operand2 := Expr(ts, j + 1, level + 1);
      if !operand2.Ok? then operand2
      else LevelRest(ts, level, Binary(left, operand2.value.0, ts[j].tokenType), operand2.value.1)
    else Ok((left, j))
  }

  /** `unary`: a `!` (ExclamationMark) or `-` prefix wraps the unary after it; anything else is a primary. */
  function UnaryAt(ts: seq<Token>, i: nat): (r: Result<(Expression, nat)>)
    ensures r.Ok? ==> i < |ts| && i <= r.value.1
    decreases Remaining(ts, i), 2
  {
    if i >= |ts| then Panic(OUT_OF_BOUNDS)
    else if ts[i].tokenType == TokenType.ExclamationMark || ts[i].tokenType == TokenType.Minus then
      var operand := UnaryAt(ts, i + 1);
      if !operand.Ok? then operand
      else Ok((Unary(operand.value.0, ts[i].tokenType), operand.value.1))
    else PrimaryAt(ts, i)
  }

  /**
   * The argument loop of calls and array displays: while the token just passed
   * is not `close`, parse an expression and pass one more token.
   */
  function Items(ts: seq<Token>, close: TokenType, items: seq<Expression>, j: nat): (r: Result<(seq<Expression>, nat)>)
    requires j >= 1
    ensures r.Ok? ==> j <= r.value.1
    decreases Remaining(ts, j), 2 * UNARY_LEVEL + 5
  {
    if j - 1 >= |ts| then Panic(OUT_OF_BOUNDS)
    else if ts[j - 1].tokenType == close then Ok((items, j))
    else
      var e := Expr(ts, j, 0);
      if !e.Ok? then e.PropagateFailure()
      else Items(ts, close, items + [e.value.0], e.value.1 + 1)
  }

  /**
   * `primary`: a literal token, a call, an index or a method call on an
   * identifier, a parenthesised equality and an array display; anything else is
   * `Literal(Null)` and consumes nothing.
   */
  function PrimaryAt(ts: seq<Token>, i: nat): (r: Result<(Expression, nat)>)
    ensures r.Ok? ==> i < |ts| && i <= r.value.1
    decreases Remaining(ts, i), 1
  {
    if i >= |ts| then Panic(OUT_OF_BOUNDS)
    else
      var t := ts[i];
      if t.tokenType in LITERAL_TOKENS then
        if i + 1 >= |ts| then Panic(OUT_OF_BOUNDS)
        else if ts[i + 1].tokenType in POSTFIX_TOKENS then PostfixAt(ts, i)
        else
          match t.literal
          case None => Panic("Couldn't parse literal on line " + NatToString(t.line))
          case Some(x) => Ok((Literal(x), i + 1))
      else if t.tokenType == TokenType.ParenthesisLeft then GroupAt(ts, i)
      else if t.tokenType == TokenType.BracketLeft then
        var items := Items(ts, TokenType.BracketRight, [], i + 1);
        if !items.Ok? then items.PropagateFailure()
        else Ok((Expression.Array(items.value.0), items.value.1))
      else Ok((Literal(Object.Null), i))
  }

  /** The tokens after a literal token that make `primary` read a call, an index or a method call. */
  const POSTFIX_TOKENS: set<TokenType> := {TokenType.ParenthesisLeft, TokenType.BracketLeft, TokenType.Dot}

  /** `name(args)`, `name[index]` and `name.method(args)`: the token at `i` must carry an identifier. */
  function PostfixAt(ts: seq<Token>, i: nat): (r: Result<(Expression, nat)>)
    requires i + 1 < |ts|
    ensures r.Ok? ==> i < r.value.1
    decreases Remaining(ts, i), 0
  {
    match IdentifierOf(ts[i])
    case None => Panic("Couldn't get function parameters")
    case Some(name) =>
      if ts[i + 1].tokenType == TokenType.ParenthesisLeft then
        var args := Items(ts, TokenType.ParenthesisRight, [], i + 2);
        if !args.Ok? then args.PropagateFailure()
        else Ok((FunctionCall(name, args.value.0), args.value.1))
      else if ts[i + 1].tokenType == TokenType.BracketLeft then
        var index := Expr(ts, i + 2, 0);
        if !index.Ok? then index
        else Ok((ArrayIndex(name, index.value.0), index.value.1 + 1))
      else if i + 2 >= |ts| then Panic(OUT_OF_BOUNDS)
      else
        match IdentifierOf(ts[i + 2])
        case None => Panic("Method call needs method name")
        case Some(methodName) =>
          var args := Items(ts, TokenType.ParenthesisRight, [], i + 3);
          if !args.Ok? then args.PropagateFailure()
          else Ok((MethodCall(name, methodName, args.value.0), args.value.1))
  }

  /** `( e )` reads an equality, not a full expression, and consumes the `)` only when it is there. */
  function GroupAt(ts: seq<Token>, i: nat): (r: Result<(Expression, nat)>)
    requires i < |ts|
    ensures r.Ok? ==> i < r.value.1
    decreases Remaining(ts, i), 0
  {
    var inner := Expr(ts, i + 1, 2);
    if !inner.Ok? then inner
    else
      var k := inner.value.1;
      if k >= |ts| then Panic(OUT_OF_BOUNDS)
      else if ts[k].tokenType == TokenType.ParenthesisRight then Ok((inner.value.0, k + 1))
      else Ok((inner.value.0, k))
  }

  /**
   * `statement` from the token at `i`: the keyword statements, and otherwise an
   * assignment `name = e` or, with the cursor put back, an expression statement.
   */
  function StatementAt(ts: seq<Token>, i: nat): (r: Result<(Statement, nat)>)
    ensures r.Ok? ==> i < |ts| && i <= r.value.1
    decreases Remaining(ts, i), 30
  {
    if i >= |ts| then Panic(OUT_OF_BOUNDS)
    else
      match ts[i].tokenType
      case Print =>
        var e := Expr(ts, i + 1, 0);
        if !e.Ok? then e.PropagateFailure() else Ok((Statement.Print(e.value.0), e.value.1))
      case EOF => Ok((Statement.EOF, i + 1))
      case Let => LetAt(ts, i)
      case If => IfAt(ts, i)
      case Loop =>
        var block := StatementAt(ts, i + 1);
        if !block.Ok? then block else Ok((Statement.Loop(block.value.0), block.value.1))
      case Break => Ok((Statement.Break, i + 1))
      case While =>
        var condition := Expr(ts, i + 1, 0);
        if !condition.Ok? then condition.PropagateFailure()
        else
          var block := StatementAt(ts, condition.value.1);
          if !block.Ok? then block else Ok((Statement.While(condition.value.0, block.value.0), block.value.1))
      case BraceLeft =>
        var body := BlockRest(ts, [], i + 1);
        if !body.Ok? then body.PropagateFailure() else Ok((Block(body.value.0), body.value.1))
      case Function => FunctionAt(ts, i)
      case Return =>
        var e := Expr(ts, i + 1, 0);
        if !e.Ok? then e.PropagateFailure() else Ok((Statement.Return(e.value.0), e.value.1))
      case Import =>
        var e := Expr(ts, i + 1, 0);
        if !e.Ok? then e.PropagateFailure() else Ok((Statement.Import(e.value.0), e.value.1))
      case Process => ProcessAt(ts, i)
      case _ => OtherAt(ts, i)
  }

  /** `let name`, optionally followed by `= e`; without it the value is `Literal(Object.Null)`. */
  function LetAt(ts: seq<Token>, i: nat): (r: Result<(Statement, nat)>)
    requires i < |ts|
    ensures r.Ok? ==> i < r.value.1
    decreases Remaining(ts, i), 29
  {
    if i + 1 >= |ts| then Panic(OUT_OF_BOUNDS)
    else
      match IdentifierOf(ts[i + 1])
      case None => Panic("Expected variable name to be String")
      case Some(name) =>
        if i + 2 >= |ts| then Panic(OUT_OF_BOUNDS)
        else if ts[i + 2].tokenType == TokenType.Assign then
          var value := Expr(ts, i + 3, 0);
          if !value.Ok? then value.PropagateFailure() else Ok((Definition(name, value.value.0), value.value.1))
        else Ok((Definition(name, Literal(Object.Null)), i + 2))
  }

  /** `if c S`, and `else S'` when an Else token follows the first branch. */
  function IfAt(ts: seq<Token>, i: nat): (r: Result<(Statement, nat)>)
    requires i < |ts|
    ensures r.Ok? ==> i < r.value.1
    decreases Remaining(ts, i), 29
  {
    var condition := Expr(ts, i + 1, 0);
    if !condition.Ok? then condition.PropagateFailure()
    else
      var block := StatementAt(ts, condition.value.1);
      if !block.Ok? then block
      else
        var k := block.value.1;
        if k >= |ts| then Panic(OUT_OF_BOUNDS)
        else if ts[k].tokenType == TokenType.Else then
          var elseBlock := StatementAt(ts, k + 1);
          if !elseBlock.Ok? then elseBlock
          else Ok((IfElse(condition.value.0, block.value.0, elseBlock.value.0), elseBlock.value.1))
        else Ok((Statement.If(condition.value.0, block.value.0), k))
  }

  /** The loop of a block: statements until the closing brace, which is consumed. */
  function BlockRest(ts: seq<Token>, body: seq<Statement>, j: nat): (r: Result<(seq<Statement>, nat)>)
    ensures r.Ok? ==> j < r.value.1
    decreases Remaining(ts, j), 31
  {
    if j >= |ts| then Panic(OUT_OF_BOUNDS)
    else if ts[j].tokenType == TokenType.BraceRight then Ok((body, j + 1))
    else
      var s := StatementAt(ts, j);
      if !s.Ok? then s.PropagateFailure()
      else if s.value.1 == j then Stop(Diverges)
      else BlockRest(ts, body + [s.value.0], s.value.1)
  }

  /** The parameter loop: while the token after the cursor is a comma or `)`, take the identifier under it and pass both. */
  function Params(ts: seq<Token>, params: seq<string>, j: nat): (r: Result<(seq<string>, nat)>)
    ensures r.Ok? ==> j <= r.value.1
    decreases Remaining(ts, j)
  {
    if j + 1 >= |ts| then Panic(OUT_OF_BOUNDS)
    else if ts[j + 1].tokenType == TokenType.Comma || ts[j + 1].tokenType == TokenType.ParenthesisRight then
      match IdentifierOf(ts[j])
      case None => Panic("Expected identifier as function parameter")
      case Some(p) => Params(ts, params + [p], j + 2)
    else Ok((params, j))
  }

  /** `function name(params) S`. */
  function FunctionAt(ts: seq<Token>, i: nat): (r: Result<(Statement, nat)>)
    requires i < |ts|
    ensures r.Ok? ==> i < r.value.1
    decreases Remaining(ts, i), 29
  {
    if i + 1 >= |ts| then Panic(OUT_OF_BOUNDS)
    else
      match IdentifierOf(ts[i + 1])
      case None => Panic("Functions need identifiers")
      case Some(name) =>
        if i + 2 >= |ts| then Panic(OUT_OF_BOUNDS)
        else if ts[i + 2].tokenType != TokenType.ParenthesisLeft then Panic("Expected parenthesis after function identifier")
        else if i + 3 >= |ts| then Panic(OUT_OF_BOUNDS)
        else
          var params :=
            if ts[i + 3].tokenType == TokenType.ParenthesisRight then Ok(([], i + 4))
            else Params(ts, [], i + 3);
          if !params.Ok? then params.PropagateFailure()
          else
            var block := StatementAt(ts, params.value.1);
            if !block.Ok? then block
            else Ok((Statement.Function(name, params.value.0, block.value.0), block.value.1))
  }

  /** `process readfile writefile S`. */
  function ProcessAt(ts: seq<Token>, i: nat): (r: Result<(Statement, nat)>)
    requires i < |ts|
    ensures r.Ok? ==> i < r.value.1
    decreases Remaining(ts, i), 29
  {
    var readfile := Expr(ts, i + 1, 0);
    if !readfile.Ok? then readfile.PropagateFailure()
    else
      var writefile := Expr(ts, readfile.value.1, 0);
      if !writefile.Ok? then writefile.PropagateFailure()
      else
        var block := StatementAt(ts, writefile.value.1);
        if !block.Ok? then block
        else Ok((Statement.Process(readfile.value.0, writefile.value.0, block.value.0), block.value.1))
  }

  /** Any other first token: `name = e` is a Definition; otherwise the cursor goes back and an expression statement is read. */
  function OtherAt(ts: seq<Token>, i: nat): (r: Result<(Statement, nat)>)
    requires i < |ts|
    ensures r.Ok? ==> i <= r.value.1
    decreases Remaining(ts, i), 29
  {
    if i + 1 >= |ts| then Panic(OUT_OF_BOUNDS)
    else if ts[i + 1].tokenType == TokenType.Assign then
      match IdentifierOf(ts[i])
      case None => Panic("Expected variable name to be String")
      case Some(name) =>
        var value := Expr(ts, i + 2, 0);
        if !value.Ok? then value.PropagateFailure() else Ok((Definition(name, value.value.0), value.value.1))
    else
      var e := Expr(ts, i, 0);
      if !e.Ok? then e.PropagateFailure() else Ok((Statement.Expression(e.value.0), e.value.1))
  }

  /** `at_end`: the cursor is one past the end (after saturating subtraction), or the current token is EOF. */
  function AtEnd(ts: seq<Token>, i: nat): Result<bool>
  {
    if (if i == 0 then 0 else i - 1) == |ts| then Ok(true)
    else if i >= |ts| then Panic(OUT_OF_BOUNDS)
    else Ok(ts[i].tokenType == TokenType.EOF)
  }

  /** The loop of `parse`: statements until `at_end`; a statement that consumes nothing repeats forever. */
  function ParseFrom(ts: seq<Token>, statements: seq<Statement>, i: nat): (r: Result<seq<Statement>>)
    decreases Remaining(ts, i)
  {
    var atEnd := AtEnd(ts, i);
    if !atEnd.Ok? then atEnd.PropagateFailure()
    else if atEnd.value then Ok(statements)
    else
      var s := StatementAt(ts, i);
      if !s.Ok? then s.PropagateFailure()
      else if s.value.1 == i then Stop(Diverges)
      else ParseFrom(ts, statements + [s.value.0], s.value.1)
  }

  /** What `Parser::parse` returns for the token list `ts`. */
  function Parsed(ts: seq<Token>): Result<seq<Statement>>
  {
    ParseFrom(ts, [], 0)
  }

  /** The parser state: the token list and the index of the current token. */
  class Parser {
    const tokens: seq<Token>
    var index: nat

    constructor (tokens: seq<Token>)
      ensures this.tokens == tokens && index == 0
    {
      this.tokens := tokens;
      index := 0;
    }

    /** `expression`. */
    method ParseExpression() returns (r: Result<Expression>)
      modifies this
      ensures WithIndex(r, index) == Expr(tokens, old(index), 0)
      decreases Remaining(tokens, index), 2 * UNARY_LEVEL + 4
    {
      r := ParseLevel(0);
    }

    /** `or`, `and`, `equality`, `comparison`, `term`, `factor`, `power` and `uncertainty` (levels 0 to 7), and `unary` (level 8). */
    method ParseLevel(level: nat) returns (r: Result<Expression>)
      requires level <= UNARY_LEVEL
      modifies this
      ensures WithIndex(r, index) == Expr(tokens, old(index), level)
      decreases Remaining(tokens, index), 2 * (UNARY_LEVEL - level) + 3
    {
      if level == UNARY_LEVEL {
        r := ParseUnary();
        return;
      }
      ghost var start := index;
      var first := ParseLevel(level + 1);
      if !first.Ok? {
        return first;
      }
      var temp := first.value;
      ghost var spec := LevelRest(tokens, level, temp, index);
      while index < |tokens| && tokens[index].tokenType in Operators(level)
        invariant start < |tokens| && start <= index
        invariant LevelRest(tokens, level, temp, index) == spec
        decreases Remaining(tokens, index)
      {
        var operator := tokens[index].tokenType;
        index := index + 1;
        var operand2 := ParseLevel(level + 1);
        if !operand2.Ok? {
          return operand2;
        }
        temp := Binary(temp, operand2.value, operator);
      }
      if index >= |tokens| {
        return Panic(OUT_OF_BOUNDS);
      }
      r := Ok(temp);
    }

    /** `unary`. */
    method ParseUnary() returns (r: Result<Expression>)
      modifies this
      ensures WithIndex(r, index) == UnaryAt(tokens, old(index))
      decreases Remaining(tokens, index), 2
    {
      if index >= |tokens| {
        return Panic(OUT_OF_BOUNDS);
      }
      var operator := tokens[index].tokenType;
      if operator == TokenType.ExclamationMark || operator == TokenType.Minus {
        index := index + 1;
        var operand := ParseUnary();
        if !operand.Ok? {
          return operand;
        }
        r := Ok(Unary(operand.value, operator));
      } else {
        r := ParsePrimary();
      }
    }

    /** The argument loop of a call or an array display, entered just after its opening token. */
    method ParseItems(close: TokenType) returns (r: Result<seq<Expression>>)
      requires index >= 1
      modifies this
      ensures WithIndex(r, index) == Items(tokens, close, [], old(index))
      decreases Remaining(tokens, index), 2 * UNARY_LEVEL + 5
    {
      var items: seq<Expression> := [];
      ghost var start := index;
      ghost var spec := Items(tokens, close, [], index);
      while index - 1 < |tokens| && tokens[index - 1].tokenType != close
        invariant 1 <= start <= index
        invariant Items(tokens, close, items, index) == spec
        decreases Remaining(tokens, index)
      {
        var e := ParseExpression();
        if !e.Ok? {
          return e.PropagateFailure();
        }
        items := items + [e.value];
        index := index + 1;
      }
      if index - 1 >= |tokens| {
        return Panic(OUT_OF_BOUNDS);
      }
      r := Ok(items);
    }

    /** `primary`. */
    method ParsePrimary() returns (r: Result<Expression>)
      modifies this
      ensures WithIndex(r, index) == PrimaryAt(tokens, old(index))
      decreases Remaining(tokens, index), 1
    {
      if index >= |tokens| {
        return Panic(OUT_OF_BOUNDS);
      }
      var t := tokens[index];
      if t.tokenType in LITERAL_TOKENS {
        if index + 1 >= |tokens| {
          return Panic(OUT_OF_BOUNDS);
        }
        if tokens[index + 1].tokenType in POSTFIX_TOKENS {
          r := ParsePostfix();
        } else if t.literal.None? {
          r := Panic("Couldn't parse literal on line " + NatToString(t.line));
        } else {
          index := index + 1;
          r := Ok(Literal(t.literal.value));
        }
      } else if t.tokenType == TokenType.ParenthesisLeft {
        r := ParseGroup();
      } else if t.tokenType == TokenType.BracketLeft {
        index := index + 1;
        var items := ParseItems(TokenType.BracketRight);
        r := if items.Ok? then Ok(Expression.Array(items.value)) else items.PropagateFailure();
      } else {
        r := Ok(Literal(Object.Null));
      }
    }

    /** The call, index and method-call arms of `primary`. */
    method ParsePostfix() returns (r: Result<Expression>)
      requires index + 1 < |tokens|
      modifies this
      ensures WithIndex(r, index) == PostfixAt(tokens, old(index))
      decreases Remaining(tokens, index), 0
    {
      var name := IdentifierOf(tokens[index]);
      if name.None? {
        return Panic("Couldn't get function parameters");
      }
      var next := tokens[index + 1].tokenType;
      if next == TokenType.ParenthesisLeft {
        index := index + 2;
        var args := ParseItems(TokenType.ParenthesisRight);
        r := if args.Ok? then Ok(FunctionCall(name.value, args.value)) else args.PropagateFailure();
      } else if next == TokenType.BracketLeft {
        index := index + 2;
        var e := ParseExpression();
        if !e.Ok? {
          return e;
        }
        index := index + 1;
        r := Ok(ArrayIndex(name.value, e.value));
      } else {
        if index + 2 >= |tokens| {
          return Panic(OUT_OF_BOUNDS);
        }
        var methodName := IdentifierOf(tokens[index + 2]);
        if methodName.None? {
          return Panic("Method call needs method name");
        }
        index := index + 3;
        var args := ParseItems(TokenType.ParenthesisRight);
        r := if args.Ok? then Ok(MethodCall(name.value, methodName.value, args.value)) else args.PropagateFailure();
      }
    }

    /** The parenthesis arm of `primary`. */
    method ParseGroup() returns (r: Result<Expression>)
      requires index < |tokens|
      modifies this
      ensures WithIndex(r, index) == GroupAt(tokens, old(index))
      decreases Remaining(tokens, index), 0
    {
      index := index + 1;
      var inner := ParseLevel(2);
      if !inner.Ok? {
        return inner;
      }
      if index >= |tokens| {
        return Panic(OUT_OF_BOUNDS);
      }
      if tokens[index].tokenType == TokenType.ParenthesisRight {
        index := index + 1;
      }
      r := inner;
    }

    /** `statement`: consumes the first token and dispatches on it. */
    method ParseStatement() returns (r: Result<Statement>)
      modifies this
      ensures WithIndex(r, index) == StatementAt(tokens, old(index))
      decreases Remaining(tokens, index), 30
    {
      if index >= |tokens| {
        return Panic(OUT_OF_BOUNDS);
      }
      index := index + 1;
      match tokens[index - 1].tokenType
      case Print =>
        var e := ParseExpression();
        r := if e.Ok? then Ok(Statement.Print(e.value)) else e.PropagateFailure();
      case EOF =>
        r := Ok(Statement.EOF);
      case Let =>
        r := ParseLet();
      case If =>
        r := ParseIf();
      case Loop =>
        var block := ParseStatement();
        r := if block.Ok? then Ok(Statement.Loop(block.value)) else block;
      case Break =>
        r := Ok(Statement.Break);
      case While =>
        var condition := ParseExpression();
        if !condition.Ok? {
          return condition.PropagateFailure();
        }
        var block := ParseStatement();
        r := if block.Ok? then Ok(Statement.While(condition.value, block.value)) else block;
      case BraceLeft =>
        var body := ParseBlock();
        r := if body.Ok? then Ok(Block(body.value)) else body.PropagateFailure();
      case Function =>
        r := ParseFunction();
      case Return =>
        var e := ParseExpression();
        r := if e.Ok? then Ok(Statement.Return(e.value)) else e.PropagateFailure();
      case Import =>
        var e := ParseExpression();
        r := if e.Ok? then Ok(Statement.Import(e.value)) else e.PropagateFailure();
      case Process =>
        r := ParseProcess();
      case _ =>
        r := ParseOther();
    }

    /** The `let` arm, entered just after the keyword. */
    method ParseLet() returns (r: Result<Statement>)
      requires 1 <= index <= |tokens|
      modifies this
      ensures WithIndex(r, index) == LetAt(tokens, old(index) - 1)
      decreases Remaining(tokens, index - 1), 29
    {
      if index >= |tokens| {
        return Panic(OUT_OF_BOUNDS);
      }
      var name := IdentifierOf(tokens[index]);
      if name.None? {
        return Panic("Expected variable name to be String");
      }
      index := index + 1;
      if index >= |tokens| {
        return Panic(OUT_OF_BOUNDS);
      }
      if tokens[index].tokenType == TokenType.Assign {
        index := index + 1;
        var value := ParseExpression();
        r := if value.Ok? then Ok(Definition(name.value, value.value)) else value.PropagateFailure();
      } else {
        r := Ok(Definition(name.value, Literal(Object.Null)));
      }
    }

    /** The `if` arm, entered just after the keyword. */
    method ParseIf() returns (r: Result<Statement>)
      requires 1 <= index <= |tokens|
      modifies this
      ensures WithIndex(r, index) == IfAt(tokens, old(index) - 1)
      decreases Remaining(tokens, index - 1), 29
    {
      var condition := ParseExpression();
      if !condition.Ok? {
        return condition.PropagateFailure();
      }
      var block := ParseStatement();
      if !block.Ok? {
        return block;
      }
      if index >= |tokens| {
        return Panic(OUT_OF_BOUNDS);
      }
      if tokens[index].tokenType == TokenType.Else {
        index := index + 1;
        var elseBlock := ParseStatement();
        r := if elseBlock.Ok? then Ok(IfElse(condition.value, block.value, elseBlock.value)) else elseBlock;
      } else {
        r := Ok(Statement.If(condition.value, block.value));
      }
    }

    /**
     * The block loop, entered just after `{`. A statement that leaves the cursor
     * where it was would be parsed again and again without end; that is `Diverges`.
     */
    method ParseBlock() returns (r: Result<seq<Statement>>)
      modifies this
      ensures WithIndex(r, index) == BlockRest(tokens, [], old(index))
      decreases Remaining(tokens, index), 31
    {
      var body: seq<Statement> := [];
      ghost var start := index;
      ghost var spec := BlockRest(tokens, [], index);
      while index < |tokens| && tokens[index].tokenType != TokenType.BraceRight
        invariant start <= index
        invariant BlockRest(tokens, body, index) == spec
        decreases Remaining(tokens, index)
      {
        var before := index;
        var s := ParseStatement();
        if !s.Ok? {
          return s.PropagateFailure();
        }
        if index == before {
          return Stop(Diverges);
        }
        body := body + [s.value];
      }
      if index >= |tokens| {
        return Panic(OUT_OF_BOUNDS);
      }
      index := index + 1;
      r := Ok(body);
    }

    /** The `function` arm, entered just after the keyword. */
    method ParseFunction() returns (r: Result<Statement>)
      requires 1 <= index <= |tokens|
      modifies this
      ensures WithIndex(r, index) == FunctionAt(tokens, old(index) - 1)
      decreases Remaining(tokens, index - 1), 29
    {
      ghost var start := index;
      if index >= |tokens| {
        return Panic(OUT_OF_BOUNDS);
      }
      var name := IdentifierOf(tokens[index]);
      if name.None? {
        return Panic("Functions need identifiers");
      }
      index := index + 1;
      if index >= |tokens| {
        return Panic(OUT_OF_BOUNDS);
      }
      if tokens[index].tokenType != TokenType.ParenthesisLeft {
        return Panic("Expected parenthesis after function identifier");
      }
      index := index + 1;
      if index >= |tokens| {
        return Panic(OUT_OF_BOUNDS);
      }
      var params: seq<string> := [];
      if tokens[index].tokenType == TokenType.ParenthesisRight {
        index := index + 1;
      } else {
        var ps := ParseParams();
        if !ps.Ok? {
          return ps.PropagateFailure();
        }
        params := ps.value;
      }
      var block := ParseStatement();
      r := if block.Ok? then Ok(Statement.Function(name.value, params, block.value)) else block;
    }

    /** The parameter loop of the `function` arm. */
    method ParseParams() returns (r: Result<seq<string>>)
      modifies this
      ensures WithIndex(r, index) == Params(tokens, [], old(index))
    {
      var params: seq<string> := [];
      ghost var spec := Params(tokens, [], index);
      while index + 1 < |tokens| && (tokens[index + 1].tokenType == TokenType.Comma || tokens[index + 1].tokenType == TokenType.ParenthesisRight)
        invariant Params(tokens, params, index) == spec
        decreases Remaining(tokens, index)
      {
        var p := IdentifierOf(tokens[index]);
        if p.None? {
          return Panic("Expected identifier as function parameter");
        }
        params := params + [p.value];
        index := index + 2;
      }
      if index + 1 >= |tokens| {
        return Panic(OUT_OF_BOUNDS);
      }
      r := Ok(params);
    }

    /** The `process` arm, entered just after the keyword. */
    method ParseProcess() returns (r: Result<Statement>)
      requires 1 <= index <= |tokens|
      modifies this
      ensures WithIndex(r, index) == ProcessAt(tokens, old(index) - 1)
      decreases Remaining(tokens, index - 1), 29
    {
      var readfile := ParseExpression();
      if !readfile.Ok? {
        return readfile.PropagateFailure();
      }
      var writefile := ParseExpression();
      if !writefile.Ok? {
        return writefile.PropagateFailure();
      }
      var block := ParseStatement();
      r := if block.Ok? then Ok(Statement.Process(readfile.value, writefile.value, block.value)) else block;
    }

    /** The fallback arm, entered just after the first token: an assignment, or an expression statement read from that token again. */
    method ParseOther() returns (r: Result<Statement>)
      requires 1 <= index <= |tokens|
      modifies this
      ensures WithIndex(r, index) == OtherAt(tokens, old(index) - 1)
      decreases Remaining(tokens, index - 1), 29
    {
      if index >= |tokens| {
        return Panic(OUT_OF_BOUNDS);
      }
      if tokens[index].tokenType == TokenType.Assign {
        var name := IdentifierOf(tokens[index - 1]);
        if name.None? {
          return Panic("Expected variable name to be String");
        }
        index := index + 1;
        var value := ParseExpression();
        r := if value.Ok? then Ok(Definition(name.value, value.value)) else value.PropagateFailure();
      } else {
        index := index - 1;
        var e := ParseExpression();
        r := if e.Ok? then Ok(Statement.Expression(e.value)) else e.PropagateFailure();
      }
    }

    /**
     * `Parser::parse`: statements until `at_end`. As in the block loop, a
     * statement that leaves the cursor where it was would repeat forever.
     */
    static method Parse(tokens: seq<Token>) returns (r: Result<seq<Statement>>)
      ensures r == Parsed(tokens)
    {
      var parser := new Parser(tokens);
      var statements: seq<Statement> := [];
      ghost var spec := ParseFrom(tokens, [], 0);
      while true
        invariant ParseFrom(tokens, statements, parser.index) == spec
        decreases Remaining(tokens, parser.index)
      {
        var atEnd := AtEnd(tokens, parser.index);
        if !atEnd.Ok? {
          return atEnd.PropagateFailure();
        }
        if atEnd.value {
          return Ok(statements);
        }
        var before := parser.index;
        var s := parser.ParseStatement();
        if !s.Ok? {
          return s.PropagateFailure();
        }
        if parser.index == before {
          return Stop(Diverges);
        }
        statements := statements + [s.value];
      }
    }
  }
}
