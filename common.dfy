/**
 * The shared data of every stage of Hawk: token types, tokens, the `Object`
 * values that flow from the lexer to the evaluator, and the syntax trees.
 * `Decimal` is the exact decimal number type of the interpreter; `Float` and the
 * payloads of `Uncertain` are read as exact reals as well.
 */
module Common {
  import opened Outcomes

  datatype TokenType =
    // keywords
    | If | Else | Loop | While | For | Break | Class | Super | This | Let | Null
    | Function | Return | Print | Import | Process | Finder | Find | Equation
    // literals
    | Identifier | String | Int | Float | True | False
    // punctuation
    | ParenthesisLeft | ParenthesisRight | BraceLeft | BraceRight | BracketLeft | BracketRight
    | Comma | Dot | Minus | Plus | Semicolon | Slash | Asterisk | Colon | Caret | E | Abs
    | PlusMinus | QuestionMark | ExclamationMark | Assign | EqualEqual | GreaterThan
    | GreaterThanEqual | LessThan | LessThanEqual | NotEqual | And | Or | Not | FatArrow
    | NewLine | EOF
    // `TokenType::Decimal`, emitted by the CSV lexer only
    | DecimalNumber

  datatype Token = Token(tokenType: TokenType, line: nat, literal: Option<Object>)

  datatype Object =
    | Null
    | Int(i: i128)
    | Float(f: real)
    | String(s: string)
    | Boolean(b: bool)
    | Uncertain(value: real, uncertainty: real)
    | Function(params: seq<string>, block: Statement)
    | Finder(equations: seq<(Expression, Expression)>)
    | Array(items: seq<Object>)
    | Identifier(name: string)
    | Column(cells: seq<Object>)
    | DataTable(names: seq<string>, data: seq<Object>)
    | Decimal(d: real)

  datatype Expression =
    | Literal(obj: Object)
    | Unary(operand: Expression, operator: TokenType)
    | Binary(operand1: Expression, operand2: Expression, operator: TokenType)
    | Parenthesized(inner: Expression)
    | FunctionCall(identifier: string, args: seq<Expression>)
      /** `given` is the source's HashMap, listed in its iteration order with distinct names. */
    | FinderCall(identifier: string, given: seq<(string, Expression)>, toFind: string)
    | MethodCall(objectName: string, methodName: string, args: seq<Expression>)
    | ArrayIndex(identifier: string, index: Expression)
    | Array(elements: seq<Expression>)

  datatype Statement =
    | Print(expr: Expression)
    | Definition(name: string, value: Expression)
    | ArrayAssign(name: string, idx: Expression, value: Expression)
    | Block(body: seq<Statement>)
    | EOF
    | Expression(expr: Expression)
    | While(condition: Expression, block: Statement)
    | Loop(block: Statement)
    | Break
    | If(condition: Expression, block: Statement)
    | IfElse(condition: Expression, ifBlock: Statement, elseBlock: Statement)
    | Function(identifier: string, params: seq<string>, block: Statement)
    | Finder(identifier: string, equations: seq<(Expression, Expression)>)
    | Return(expr: Expression)
    | Import(expr: Expression)
    | Process(readfile: Expression, writefile: Expression, block: Statement)
    | Line

  predicate IsNumber(o: Object) { o.Int? || o.Decimal? }

  /** `Decimal::from(x as i64)`, the conversion every mixed Int/Decimal arm uses. */
  function IntToDecimal(x: int): (d: real)
    ensures -I64_LIMIT <= x < I64_LIMIT ==> d == x as real
  {
    ToI64(x) as real
  }

  /**
   * The host functions a run is given, over the host's own state `W`:
   * `filein` reads a file (`None` is the host's error), `fileout` writes one
   * (`None` is the host's error), `warn` and `err` report a message with its
   * line, and `output` prints a message.
   */
  datatype Callbacks<!W> = Callbacks(
    filein: (W, string) -> Option<string>,
    fileout: (W, string, string) -> Option<W>,
    warn: (W, string, nat) -> W,
    err: (W, string, nat) -> W,
    output: (W, string) -> W)
}
