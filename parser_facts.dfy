/**
 * Properties of the Hawk parser model: the precedence ladder and left
 * associativity of the binary levels, nested prefixes, the statement forms,
 * blocks and the statement loop of `parse`.
 */
module ParserFacts {
  import opened Outcomes
  import opened Common
  import opened Parsing

  /** The binary level an operator token belongs to; UNARY_LEVEL for every other token. */
  function LevelOf(t: TokenType): (l: nat)
    ensures l <= UNARY_LEVEL
  {
    match t
    case Or => 0
    case And => 1
    case EqualEqual | NotEqual => 2
    case LessThan | LessThanEqual | GreaterThan | GreaterThanEqual => 3
    case Minus | Plus => 4
    case Slash | Asterisk => 5
    case Caret => 6
    case PlusMinus => 7
    case _ => UNARY_LEVEL
  }

  /** Every operator belongs to exactly one level: the ladder's levels are disjoint. */
  lemma OperatorLevel(t: TokenType, level: nat)
    requires level < UNARY_LEVEL
    ensures t in Operators(level) <==> LevelOf(t) == level
  {
  }

  /** `t` ends every binary level from `level` on: it is no operator of those levels. */
  predicate EndsFrom(t: TokenType, level: nat)
  {
    LevelOf(t) < level || LevelOf(t) == UNARY_LEVEL
  }

  /** A literal token not followed by `(`, `[` or `.`: `primary` reads it alone. */
  predicate Atom(ts: seq<Token>, i: nat)
  {
    i + 1 < |ts| && ts[i].tokenType in LITERAL_TOKENS && ts[i].literal.Some?
    && ts[i + 1].tokenType !in POSTFIX_TOKENS
  }

  /** The tree of an atom. */
  function AtomValue(ts: seq<Token>, i: nat): Expression
    requires Atom(ts, i)
  {
    Literal(ts[i].literal.value)
  }

  /** A binary level starts with the operand of the next level. */
  lemma ExprStep(ts: seq<Token>, i: nat, level: nat, e: Expression, j: nat)
    requires level < UNARY_LEVEL && Expr(ts, i, level + 1) == Ok((e, j))
    ensures Expr(ts, i, level) == LevelRest(ts, level, e, j)
  {
  }

  /** An operator of the level folds one more operand into the left tree. */
  lemma LevelStep(ts: seq<Token>, level: nat, left: Expression, j: nat, e: Expression, k: nat)
    requires level < UNARY_LEVEL && j < |ts| && ts[j].tokenType in Operators(level)
    requires Expr(ts, j + 1, level + 1) == Ok((e, k))
    ensures LevelRest(ts, level, left, j) == LevelRest(ts, level, Binary(left, e, ts[j].tokenType), k)
  {
  }

  /** Any other token ends the level. */
  lemma LevelStop(ts: seq<Token>, level: nat, left: Expression, j: nat)
    requires level < UNARY_LEVEL && j < |ts| && ts[j].tokenType !in Operators(level)
    ensures LevelRest(ts, level, left, j) == Ok((left, j))
  {
  }

  /** An atom followed by no operator of the levels from `level` on is that literal at every one of them. */
  lemma {:induction false} AtomParses(ts: seq<Token>, i: nat, level: nat)
    requires Atom(ts, i) && level <= UNARY_LEVEL
    requires EndsFrom(ts[i + 1].tokenType, level)
    ensures Expr(ts, i, level) == Ok((AtomValue(ts, i), i + 1))
    decreases UNARY_LEVEL - level
  {
    var next: nat := i + 1;
    if level < UNARY_LEVEL {
      AtomParses(ts, i, level + 1);
      ExprStep(ts, i, level, AtomValue(ts, i), next);
      OperatorLevel(ts[i + 1].tokenType, level);
      LevelStop(ts, level, AtomValue(ts, i), next);
    } else {
      assert ts[i].tokenType != TokenType.Minus && ts[i].tokenType != TokenType.ExclamationMark;
      assert PrimaryAt(ts, i) == Ok((AtomValue(ts, i), next));
    }
  }

  /** An expression of a tight level that no looser operator follows is also the whole expression of the looser levels. */
  lemma {:induction false} Lift(ts: seq<Token>, i: nat, level: nat, top: nat, e: Expression, j: nat)
    requires top <= level <= UNARY_LEVEL
    requires Expr(ts, i, level) == Ok((e, j)) && j < |ts| && EndsFrom(ts[j].tokenType, top)
    ensures Expr(ts, i, top) == Ok((e, j))
    decreases level - top
  {
    if top < level {
      Lift(ts, i, level, top + 1, e, j);
      ExprStep(ts, i, top, e, j);
      OperatorLevel(ts[j].tokenType, top);
      LevelStop(ts, top, e, j);
    }
  }

  /** Three atoms joined by two operators, with no operator after the third. */
  predicate ThreeAtoms(ts: seq<Token>, i: nat)
  {
    Atom(ts, i) && Atom(ts, i + 2) && Atom(ts, i + 4) && LevelOf(ts[i + 5].tokenType) == UNARY_LEVEL
  }

  /** `a - b - c` is `(a - b) - c`: every binary level folds to the left. */
  lemma LeftAssociative(ts: seq<Token>, i: nat, level: nat)
    requires level < UNARY_LEVEL && ThreeAtoms(ts, i)
    requires LevelOf(ts[i + 1].tokenType) == level && LevelOf(ts[i + 3].tokenType) == level
    ensures Expr(ts, i, 0) ==
      Ok((Binary(Binary(AtomValue(ts, i), AtomValue(ts, i + 2), ts[i + 1].tokenType), AtomValue(ts, i + 4), ts[i + 3].tokenType), i + 5))
  {
    var a, b, c := AtomValue(ts, i), AtomValue(ts, i + 2), AtomValue(ts, i + 4);
    var ab := Binary(a, b, ts[i + 1].tokenType);
    var abc := Binary(ab, c, ts[i + 3].tokenType);
    var p1: nat, p3: nat, p5: nat := i + 1, i + 3, i + 5;
    AtomParses(ts, i, level + 1);
    AtomParses(ts, i + 2, level + 1);
    AtomParses(ts, i + 4, level + 1);
    ExprStep(ts, i, level, a, p1);
    OperatorLevel(ts[p1].tokenType, level);
    LevelStep(ts, level, a, p1, b, p3);
    OperatorLevel(ts[p3].tokenType, level);
    LevelStep(ts, level, ab, p3, c, p5);
    OperatorLevel(ts[p5].tokenType, level);
    LevelStop(ts, level, abc, p5);
    Lift(ts, i, level, 0, abc, p5);
  }

  /**
   * `a + b * c` is `a + (b * c)`: the operator of the tighter level groups first,
   * for any two levels of the ladder.
   */
  lemma TighterGroupsRight(ts: seq<Token>, i: nat, loose: nat, tight: nat)
    requires loose < tight < UNARY_LEVEL && ThreeAtoms(ts, i)
    requires LevelOf(ts[i + 1].tokenType) == loose && LevelOf(ts[i + 3].tokenType) == tight
    ensures Expr(ts, i, 0) ==
      Ok((Binary(AtomValue(ts, i), Binary(AtomValue(ts, i + 2), AtomValue(ts, i + 4), ts[i + 3].tokenType), ts[i + 1].tokenType), i + 5))
  {
    var a, b, c := AtomValue(ts, i), AtomValue(ts, i + 2), AtomValue(ts, i + 4);
    var bc := Binary(b, c, ts[i + 3].tokenType);
    var abc := Binary(a, bc, ts[i + 1].tokenType);
    var p1: nat, p3: nat, p5: nat := i + 1, i + 3, i + 5;
    AtomParses(ts, i, loose + 1);
    AtomParses(ts, i + 2, tight + 1);
    AtomParses(ts, i + 4, tight + 1);
    ExprStep(ts, i + 2, tight, b, p3);
    OperatorLevel(ts[p3].tokenType, tight);
    LevelStep(ts, tight, b, p3, c, p5);
    OperatorLevel(ts[p5].tokenType, tight);
    LevelStop(ts, tight, bc, p5);
    Lift(ts, i + 2, tight, loose + 1, bc, p5);
    ExprStep(ts, i, loose, a, p1);
    OperatorLevel(ts[p1].tokenType, loose);
    LevelStep(ts, loose, a, p1, bc, p5);
    OperatorLevel(ts[p5].tokenType, loose);
    LevelStop(ts, loose, abc, p5);
    Lift(ts, i, loose, 0, abc, p5);
  }

  /** `a * b + c` is `(a * b) + c`. */
  lemma TighterGroupsLeft(ts: seq<Token>, i: nat, loose: nat, tight: nat)
    requires loose < tight < UNARY_LEVEL && ThreeAtoms(ts, i)
    requires LevelOf(ts[i + 1].tokenType) == tight && LevelOf(ts[i + 3].tokenType) == loose
    ensures Expr(ts, i, 0) ==
      Ok((Binary(Binary(AtomValue(ts, i), AtomValue(ts, i + 2), ts[i + 1].tokenType), AtomValue(ts, i + 4), ts[i + 3].tokenType), i + 5))
  {
    var a, b, c := AtomValue(ts, i), AtomValue(ts, i + 2), AtomValue(ts, i + 4);
    var ab := Binary(a, b, ts[i + 1].tokenType);
    var abc := Binary(ab, c, ts[i + 3].tokenType);
    var p1: nat, p3: nat, p5: nat := i + 1, i + 3, i + 5;
    AtomParses(ts, i, tight + 1);
    AtomParses(ts, i + 2, tight + 1);
    AtomParses(ts, i + 4, loose + 1);
    ExprStep(ts, i, tight, a, p1);
    OperatorLevel(ts[p1].tokenType, tight);
    LevelStep(ts, tight, a, p1, b, p3);
    OperatorLevel(ts[p3].tokenType, tight);
    LevelStop(ts, tight, ab, p3);
    Lift(ts, i, tight, loose + 1, ab, p3);
    ExprStep(ts, i, loose, ab, p3);
    OperatorLevel(ts[p3].tokenType, loose);
    LevelStep(ts, loose, ab, p3, c, p5);
    OperatorLevel(ts[p5].tokenType, loose);
    LevelStop(ts, loose, abc, p5);
    Lift(ts, i, loose, 0, abc, p5);
  }

  /** `e` under the `n` prefix operators from token `i`, the first one outermost. */
  function Prefixed(ts: seq<Token>, i: nat, n: nat, e: Expression): Expression
    requires i + n <= |ts|
    decreases n
  {
    if n == 0 then e else Unary(Prefixed(ts, i + 1, n - 1, e), ts[i].tokenType)
  }

  /** One prefix operator wraps the unary after it. */
  lemma UnaryStep(ts: seq<Token>, i: nat, e: Expression, k: nat)
    requires i < |ts| && (ts[i].tokenType == TokenType.Minus || ts[i].tokenType == TokenType.ExclamationMark)
    requires UnaryAt(ts, i + 1) == Ok((e, k))
    ensures UnaryAt(ts, i) == Ok((Unary(e, ts[i].tokenType), k))
  {
  }

  /** A run of `-` (and ExclamationMark) prefixes before an atom nests one Unary node per prefix, the first outermost. */
  lemma {:induction false} PrefixesNest(ts: seq<Token>, i: nat, n: nat)
    requires i + n < |ts| && Atom(ts, i + n)
    requires forall k :: i <= k < i + n ==> ts[k].tokenType == TokenType.Minus || ts[k].tokenType == TokenType.ExclamationMark
    ensures UnaryAt(ts, i) == Ok((Prefixed(ts, i, n, AtomValue(ts, i + n)), i + n + 1))
    decreases n
  {
    if n == 0 {
      AtomParses(ts, i, UNARY_LEVEL);
    } else {
      PrefixesNest(ts, i + 1, n - 1);
      var inner := Prefixed(ts, i + 1, n - 1, AtomValue(ts, i + n));
      var end: nat := i + n + 1;
      UnaryStep(ts, i, inner, end);
    }
  }

  /** `let x` without `=` defines `x` as `Literal(Null)` and stops on the token after the name. */
  lemma LetWithoutValue(ts: seq<Token>, i: nat, name: string)
    requires i + 2 < |ts| && ts[i].tokenType == TokenType.Let
    requires IdentifierOf(ts[i + 1]) == Some(name) && ts[i + 2].tokenType != TokenType.Assign
    ensures StatementAt(ts, i) == Ok((Definition(name, Literal(Object.Null)), i + 2))
  {
  }

  /** `let x = e` defines `x` as the expression after `=`. */
  lemma LetWithValue(ts: seq<Token>, i: nat, name: string, e: Expression, k: nat)
    requires i + 2 < |ts| && ts[i].tokenType == TokenType.Let
    requires IdentifierOf(ts[i + 1]) == Some(name) && ts[i + 2].tokenType == TokenType.Assign
    requires Expr(ts, i + 3, 0) == Ok((e, k))
    ensures StatementAt(ts, i) == Ok((Definition(name, e), k))
  {
  }

  /** `if c S` is an If, unless an Else token follows S, which makes it an IfElse with the statement after `else`. */
  lemma IfOrIfElse(ts: seq<Token>, i: nat, c: Expression, j: nat, s: Statement, k: nat)
    requires i < |ts| && ts[i].tokenType == TokenType.If
    requires Expr(ts, i + 1, 0) == Ok((c, j)) && StatementAt(ts, j) == Ok((s, k)) && k < |ts|
    ensures ts[k].tokenType != TokenType.Else ==> StatementAt(ts, i) == Ok((Statement.If(c, s), k))
    ensures ts[k].tokenType == TokenType.Else ==>
      var e := StatementAt(ts, k + 1);
      StatementAt(ts, i) == if e.Ok? then Ok((IfElse(c, s, e.value.0), e.value.1)) else e
  {
    StatementAtIf(ts, i);
    IfAtCases(ts, i, c, j, s, k);
  }

  lemma IfAtCases(ts: seq<Token>, i: nat, c: Expression, j: nat, s: Statement, k: nat)
    requires i < |ts|
    requires Expr(ts, i + 1, 0) == Ok((c, j)) && StatementAt(ts, j) == Ok((s, k)) && k < |ts|
    ensures ts[k].tokenType != TokenType.Else ==> IfAt(ts, i) == Ok((Statement.If(c, s), k))
    ensures ts[k].tokenType == TokenType.Else ==>
      var e := StatementAt(ts, k + 1);
      IfAt(ts, i) == if e.Ok? then Ok((IfElse(c, s, e.value.0), e.value.1)) else e
  {
    if ts[k].tokenType == TokenType.Else {
      IfAtElse(ts, i, c, j, s, k);
    } else {
      IfAtPlain(ts, i, c, j, s, k);
    }
  }

  lemma IfAtPlain(ts: seq<Token>, i: nat, c: Expression, j: nat, s: Statement, k: nat)
    requires i < |ts|
    requires Expr(ts, i + 1, 0) == Ok((c, j)) && StatementAt(ts, j) == Ok((s, k)) && k < |ts|
    requires ts[k].tokenType != TokenType.Else
    ensures IfAt(ts, i) == Ok((Statement.If(c, s), k))
  {
  }

  lemma IfAtElse(ts: seq<Token>, i: nat, c: Expression, j: nat, s: Statement, k: nat)
    requires i < |ts|
    requires Expr(ts, i + 1, 0) == Ok((c, j)) && StatementAt(ts, j) == Ok((s, k)) && k < |ts|
    requires ts[k].tokenType == TokenType.Else
    ensures var e := StatementAt(ts, k + 1);
      IfAt(ts, i) == if e.Ok? then Ok((IfElse(c, s, e.value.0), e.value.1)) else e
  {
  }

  lemma StatementAtIf(ts: seq<Token>, i: nat)
    requires i < |ts| && ts[i].tokenType == TokenType.If
    ensures StatementAt(ts, i) == IfAt(ts, i)
  {
  }

  /** `name = e` at the start of a statement is a Definition. */
  lemma Assignment(ts: seq<Token>, i: nat, name: string)
    requires i + 1 < |ts| && ts[i].tokenType == TokenType.Identifier && IdentifierOf(ts[i]) == Some(name)
    requires ts[i + 1].tokenType == TokenType.Assign
    ensures var e := Expr(ts, i + 2, 0);
      e.Ok? ==> StatementAt(ts, i) == Ok((Definition(name, e.value.0), e.value.1))
  {
  }

  /** The token types that begin a keyword statement. */
  const STATEMENT_KEYWORDS: set<TokenType> := {
    TokenType.Print, TokenType.EOF, TokenType.Let, TokenType.If, TokenType.Loop, TokenType.Break,
    TokenType.While, TokenType.BraceLeft, TokenType.Function, TokenType.Return, TokenType.Import, TokenType.Process
  }

  /** Any other first token not followed by `=` is read again, from the same token, as an expression statement. */
  lemma ExpressionStatement(ts: seq<Token>, i: nat)
    requires i + 1 < |ts| && ts[i].tokenType !in STATEMENT_KEYWORDS && ts[i + 1].tokenType != TokenType.Assign
    ensures var e := Expr(ts, i, 0);
      StatementAt(ts, i) == if e.Ok? then Ok((Statement.Expression(e.value.0), e.value.1)) else e.PropagateFailure()
  {
  }

  /**
   * Statements `ss` parsed one after another from `j`, each consuming at least
   * one token and none starting on a `stop` token, ending at `k`.
   */
  predicate Chain(ts: seq<Token>, j: nat, ss: seq<Statement>, k: nat, stop: TokenType)
    decreases |ss|
  {
    if |ss| == 0 then j == k
    else
      var s := StatementAt(ts, j);
      s.Ok? && s.value.0 == ss[0] && j < s.value.1 && ts[j].tokenType != stop
      && Chain(ts, s.value.1, ss[1..], k, stop)
  }

  lemma AppendFirst<T>(xs: seq<T>, ys: seq<T>)
    requires |ys| > 0
    ensures xs + [ys[0]] + ys[1..] == xs + ys
  {
    assert ys == [ys[0]] + ys[1..];
  }

  /** One statement of a block that is not the closing brace and consumes something. */
  lemma BlockStep(ts: seq<Token>, body: seq<Statement>, j: nat, s: Statement, k: nat)
    requires j < |ts| && ts[j].tokenType != TokenType.BraceRight
    requires StatementAt(ts, j) == Ok((s, k)) && j < k
    ensures BlockRest(ts, body, j) == BlockRest(ts, body + [s], k)
  {
  }

  lemma {:induction false} BlockChain(ts: seq<Token>, body: seq<Statement>, j: nat, ss: seq<Statement>, k: nat)
    requires Chain(ts, j, ss, k, TokenType.BraceRight)
    ensures BlockRest(ts, body, j) == BlockRest(ts, body + ss, k)
    decreases |ss|
  {
    if |ss| == 0 {
      assert body + ss == body;
    } else {
      var next := StatementAt(ts, j).value.1;
      BlockStep(ts, body, j, ss[0], next);
      BlockChain(ts, body + [ss[0]], next, ss[1..], k);
      AppendFirst(body, ss);
    }
  }

  /** `{ S1 … Sn }` is `Block([S1 … Sn])`, and the closing brace is consumed. */
  lemma BlockStatements(ts: seq<Token>, i: nat, ss: seq<Statement>, k: nat)
    requires i < |ts| && ts[i].tokenType == TokenType.BraceLeft
    requires Chain(ts, i + 1, ss, k, TokenType.BraceRight) && k < |ts| && ts[k].tokenType == TokenType.BraceRight
    ensures StatementAt(ts, i) == Ok((Block(ss), k + 1))
  {
    BlockChain(ts, [], i + 1, ss, k);
    assert [] + ss == ss;
    var end: nat := k + 1;
    assert BlockRest(ts, ss, k) == Ok((ss, end));
  }

  /** One statement of the program that is not at EOF and consumes something. */
  lemma ParseStep(ts: seq<Token>, statements: seq<Statement>, j: nat, s: Statement, k: nat)
    requires j < |ts| && ts[j].tokenType != TokenType.EOF
    requires StatementAt(ts, j) == Ok((s, k)) && j < k
    ensures ParseFrom(ts, statements, j) == ParseFrom(ts, statements + [s], k)
  {
    assert AtEnd(ts, j) == Ok(false);
  }

  lemma {:induction false} ParseChain(ts: seq<Token>, statements: seq<Statement>, j: nat, ss: seq<Statement>, k: nat)
    requires Chain(ts, j, ss, k, TokenType.EOF)
    ensures ParseFrom(ts, statements, j) == ParseFrom(ts, statements + ss, k)
    decreases |ss|
  {
    if |ss| == 0 {
      assert statements + ss == statements;
    } else {
      var next := StatementAt(ts, j).value.1;
      ParseStep(ts, statements, j, ss[0], next);
      ParseChain(ts, statements + [ss[0]], next, ss[1..], k);
      AppendFirst(statements, ss);
    }
  }

  /** `parse` collects statements one after another until the current token is EOF. */
  lemma ParseUntilEof(ts: seq<Token>, ss: seq<Statement>, k: nat)
    requires Chain(ts, 0, ss, k, TokenType.EOF) && k < |ts| && ts[k].tokenType == TokenType.EOF
    ensures Parsed(ts) == Ok(ss)
  {
    ParseChain(ts, [], 0, ss, k);
    assert [] + ss == ss;
    assert AtEnd(ts, k) == Ok(true);
  }

  /**
   * The lexer turns `!` into a Not token, which `unary` does not take as a
   * prefix: a statement starting with it is read as `Literal(Null)` without
   * consuming anything, and `parse` repeats it forever.
   */
  lemma NotPrefixDiverges(ts: seq<Token>)
    requires |ts| >= 2 && ts[0].tokenType == TokenType.Not && ts[1].tokenType != TokenType.Assign
    ensures Parsed(ts) == Stop(Diverges)
  {
    NullAtEveryLevel(ts, 0);
    assert StatementAt(ts, 0) == Ok((Statement.Expression(Literal(Object.Null)), 0));
  }

  lemma {:induction false} NullAtEveryLevel(ts: seq<Token>, level: nat)
    requires |ts| >= 1 && ts[0].tokenType == TokenType.Not && level <= UNARY_LEVEL
    ensures Expr(ts, 0, level) == Ok((Literal(Object.Null), 0))
    decreases UNARY_LEVEL - level
  {
    if level < UNARY_LEVEL {
      NullAtEveryLevel(ts, level + 1);
      assert TokenType.Not !in Operators(level);
    } else {
      assert PrimaryAt(ts, 0) == Ok((Literal(Object.Null), 0));
    }
  }
}
