/**
 * The equation rearranger behind `find`: one side of the equation is a literal,
 * the other a single product or quotient, and `solve_for` isolates a variable
 * by one case analysis. Also the variable collection the finder uses to pick
 * an equation.
 */
module PlaceholderCas {
  import opened Outcomes
  import opened Common

  const FINDER_UNSUPPORTED := "Expression not supported in finder"

  /** `get_variables`: the identifiers of a tree of Binary and Literal nodes, left to right; any other node is an error. */
  function GetVariables(e: Expression): Result<seq<string>>
    decreases e
  {
    match e
    case Binary(operand1, operand2, _) =>
      var left := GetVariables(operand1);
      if !left.Ok? then left
      else
        var right := GetVariables(operand2);
        if !right.Ok? then right else Ok(left.value + right.value)
    case Literal(x) => Ok(if x.Identifier? then [x.name] else [])
    case _ => Fail(FINDER_UNSUPPORTED, 1)
  }

  /** What `contains` returns: whether `v` is among the variables, or the error of collecting them. */
  function Mentions(e: Expression, v: string): Result<bool>
  {
    var vars := GetVariables(e);
    if vars.Ok? then Ok(v in vars.value) else vars.PropagateFailure()
  }

  /** `contains`: a flag raised for every collected variable equal to `v`. */
  method Contains(e: Expression, v: string) returns (r: Result<bool>)
    ensures r == Mentions(e, v)
  {
    var vars := GetVariables(e);
    if !vars.Ok? {
      return vars.PropagateFailure();
    }
    var contains := false;
    for i := 0 to |vars.value|
      invariant contains <==> v in vars.value[..i]
    {
      if vars.value[i] == v {
        contains := true;
      }
      assert vars.value[..i + 1] == vars.value[..i] + [vars.value[i]];
    }
    assert vars.value[..|vars.value|] == vars.value;
    return Ok(contains);
  }

  /** The trees `get_variables` accepts: Binary and Literal nodes only. */
  predicate Supported(e: Expression)
    decreases e
  {
    match e
    case Binary(operand1, operand2, _) => Supported(operand1) && Supported(operand2)
    case Literal(_) => true
    case _ => false
  }

  /** `Literal(Identifier(v))` is a leaf of the tree. */
  predicate Occurs(e: Expression, v: string)
    decreases e
  {
    match e
    case Binary(operand1, operand2, _) => Occurs(operand1, v) || Occurs(operand2, v)
    case Literal(x) => x == Object.Identifier(v)
    case _ => false
  }

  /** Collection succeeds exactly on supported trees, fails with the finder message otherwise, and lists exactly the identifier leaves. */
  lemma {:induction false} VariablesOfSupported(e: Expression, v: string)
    ensures GetVariables(e).Ok? <==> Supported(e)
    ensures !Supported(e) ==> GetVariables(e) == Fail(FINDER_UNSUPPORTED, 1)
    ensures Supported(e) ==> (v in GetVariables(e).value <==> Occurs(e, v))
    decreases e
  {
    match e
    case Binary(operand1, operand2, _) =>
      VariablesOfSupported(operand1, v);
      VariablesOfSupported(operand2, v);
    case Literal(_) =>
    case _ =>
  }

  /** Variables are listed in order: those of the left operand, then those of the right one. */
  lemma VariablesInOrder(e1: Expression, e2: Expression, op: TokenType)
    requires GetVariables(e1).Ok? && GetVariables(e2).Ok?
    ensures GetVariables(Binary(e1, e2, op)) == Ok(GetVariables(e1).value + GetVariables(e2).value)
  {
  }

  function Var(v: string): Expression
  {
    Literal(Object.Identifier(v))
  }

  /**
   * `solve_for` as the unit tests and the comments of its arms describe it:
   * `x*a = b` and `a*x = b` give `b/a`, `x/a = b` gives `b*a`, `a/x = b` gives
   * `a/b`, with the mirrored forms for `b = …`; when the literal side already
   * mentions `v` the binary side comes back unchanged.
   */
  function SolveFor(lhs: Expression, rhs: Expression, v: string): Result<Expression>
  {
    match (lhs, rhs)
    case (Binary(operand1, operand2, operator), Literal(_)) =>
      var mentioned := Mentions(rhs, v);
      if !mentioned.Ok? then mentioned.PropagateFailure()
      else if mentioned.value then Ok(lhs)
      else if operator == TokenType.Asterisk then
        if operand1 == Var(v) then Ok(Binary(rhs, operand2, TokenType.Slash))
        else Ok(Binary(rhs, operand1, TokenType.Slash))
      else if operator == TokenType.Slash then
        if operand1 == Var(v) then Ok(Binary(rhs, operand2, TokenType.Asterisk))
        else Ok(Binary(operand1, rhs, TokenType.Slash))
      else Ok(Literal(Object.Int(0)))
    case (Literal(_), Binary(operand1, operand2, operator)) =>
      var mentioned := Mentions(lhs, v);
      if !mentioned.Ok? then mentioned.PropagateFailure()
      else if mentioned.value then Ok(rhs)
      else if operator == TokenType.Asterisk then
        if operand1 == Var(v) then Ok(Binary(lhs, operand2, TokenType.Slash))
        else Ok(Binary(lhs, operand1, TokenType.Slash))
      else if operator == TokenType.Slash then
        if operand1 == Var(v) then Ok(Binary(lhs, operand2, TokenType.Asterisk))
        else Ok(Binary(operand1, lhs, TokenType.Slash))
      else Ok(Literal(Object.Null))
    case _ => Ok(Literal(Object.Int(0)))
  }

  /**
   * `solve_for` as written: each `*` and `/` arm first requires the left
   * operand to be an identifier, and returns an error for any other left
   * operand, such as the number in `2/x = 4`.
   */
  function SolveForAsWritten(lhs: Expression, rhs: Expression, v: string): Result<Expression>
  {
    match (lhs, rhs)
    case (Binary(operand1, _, operator), Literal(_)) =>
      var mentioned := Mentions(rhs, v);
      if mentioned.Ok? && !mentioned.value && !(operand1.Literal? && operand1.obj.Identifier?) then
        if operator == TokenType.Asterisk then Fail("Cannot handle this equation", 0)
        else if operator == TokenType.Slash then Fail("Cannot handle this equaion", 4)
        else SolveFor(lhs, rhs, v)
      else SolveFor(lhs, rhs, v)
    case (Literal(_), Binary(operand1, _, operator)) =>
      var mentioned := Mentions(lhs, v);
      if mentioned.Ok? && !mentioned.value && !(operand1.Literal? && operand1.obj.Identifier?) then
        if operator == TokenType.Asterisk then Fail("Cannot handle this equaion", 6)
        else if operator == TokenType.Slash then Fail("Cannot handle this equaion", 9)
        else SolveFor(lhs, rhs, v)
      else SolveFor(lhs, rhs, v)
    case _ => SolveFor(lhs, rhs, v)
  }

  /** The two agree whenever the binary side's left operand is an identifier. */
  lemma AsWrittenOnIdentifiers(o1: Expression, o2: Expression, op: TokenType, b: Expression, v: string)
    requires o1.Literal? && o1.obj.Identifier? && b.Literal?
    ensures SolveForAsWritten(Binary(o1, o2, op), b, v) == SolveFor(Binary(o1, o2, op), b, v)
    ensures SolveForAsWritten(b, Binary(o1, o2, op), v) == SolveFor(b, Binary(o1, o2, op), v)
  {
  }

  /** The fifth and sixth assertions of the unit test `basic_cas` (`2/x = 4` and `4 = 2/x`) fail as written. */
  lemma AsWrittenRejectsNumberOperand()
    ensures SolveForAsWritten(Binary(Literal(Object.Int(2)), Var("x"), TokenType.Slash), Literal(Object.Int(4)), "x")
      == Fail("Cannot handle this equaion", 4)
    ensures SolveForAsWritten(Literal(Object.Int(4)), Binary(Literal(Object.Int(2)), Var("x"), TokenType.Slash), "x")
      == Fail("Cannot handle this equaion", 9)
  {
  }

  /** All six assertions of `basic_cas` hold for the intended solver. */
  lemma BasicCas()
    ensures SolveFor(Binary(Var("x"), Literal(Object.Int(2)), TokenType.Asterisk), Literal(Object.Int(4)), "x")
      == Ok(Binary(Literal(Object.Int(4)), Literal(Object.Int(2)), TokenType.Slash))
    ensures SolveFor(Literal(Object.Int(4)), Binary(Var("x"), Literal(Object.Int(2)), TokenType.Asterisk), "x")
      == Ok(Binary(Literal(Object.Int(4)), Literal(Object.Int(2)), TokenType.Slash))
    ensures SolveFor(Literal(Object.Int(4)), Binary(Var("x"), Literal(Object.Int(2)), TokenType.Slash), "x")
      == Ok(Binary(Literal(Object.Int(4)), Literal(Object.Int(2)), TokenType.Asterisk))
    ensures SolveFor(Binary(Var("x"), Literal(Object.Int(2)), TokenType.Slash), Literal(Object.Int(4)), "x")
      == Ok(Binary(Literal(Object.Int(4)), Literal(Object.Int(2)), TokenType.Asterisk))
    ensures SolveFor(Binary(Literal(Object.Int(2)), Var("x"), TokenType.Slash), Literal(Object.Int(4)), "x")
      == Ok(Binary(Literal(Object.Int(2)), Literal(Object.Int(4)), TokenType.Slash))
    ensures SolveFor(Literal(Object.Int(4)), Binary(Literal(Object.Int(2)), Var("x"), TokenType.Slash), "x")
      == Ok(Binary(Literal(Object.Int(2)), Literal(Object.Int(4)), TokenType.Slash))
  {
  }

  /** When the literal side is the variable itself the binary side is returned unchanged; other operators give `Int 0` or `Null`. */
  lemma SolveForFallbacks(o1: Expression, o2: Expression, op: TokenType, b: Object, v: string)
    ensures b == Object.Identifier(v) ==> SolveFor(Binary(o1, o2, op), Literal(b), v) == Ok(Binary(o1, o2, op))
    ensures b == Object.Identifier(v) ==> SolveFor(Literal(b), Binary(o1, o2, op), v) == Ok(Binary(o1, o2, op))
    ensures b != Object.Identifier(v) && op != TokenType.Asterisk && op != TokenType.Slash ==>
      SolveFor(Binary(o1, o2, op), Literal(b), v) == Ok(Literal(Object.Int(0)))
      && SolveFor(Literal(b), Binary(o1, o2, op), v) == Ok(Literal(Object.Null))
  {
  }

  /** Any pair that is not a binary node against a literal solves to `Int 0`. */
  lemma SolveForOtherShapes(lhs: Expression, rhs: Expression, v: string)
    requires !(lhs.Binary? && rhs.Literal?) && !(lhs.Literal? && rhs.Binary?)
    ensures SolveFor(lhs, rhs, v) == Ok(Literal(Object.Int(0)))
    ensures SolveForAsWritten(lhs, rhs, v) == Ok(Literal(Object.Int(0)))
  {
  }

  function Times(x: real, y: real): real { x * y }

  function Over(x: real, y: real): real
    requires y != 0.0
  {
    x / y
  }

  /** The algebraic value of a tree of numbers, variables, products and quotients. */
  function Value(e: Expression, env: map<string, real>): Option<real>
    decreases e
  {
    match e
    case Literal(o) =>
      if o.Int? then Some(o.i as real)
      else if o.Decimal? then Some(o.d)
      else if o.Identifier? && o.name in env then Some(env[o.name])
      else None
    case Binary(a, b, op) =>
      var x := Value(a, env);
      var y := Value(b, env);
      if x.None? || y.None? then None
      else if op == TokenType.Asterisk then Some(Times(x.value, y.value))
      else if op == TokenType.Slash && y.value != 0.0 then Some(Over(x.value, y.value))
      else None
    case _ => None
  }

  /** A tree that does not mention `v` has the same value whatever `v` is bound to. */
  lemma {:induction false} ValueIgnores(e: Expression, v: string, s: real, env: map<string, real>)
    requires Mentions(e, v) == Ok(false)
    ensures Value(e, env[v := s]) == Value(e, env)
    decreases e
  {
    match e
    case Binary(a, b, _) =>
      assert Mentions(a, v) == Ok(false) && Mentions(b, v) == Ok(false) by {
        assert GetVariables(e).value == GetVariables(a).value + GetVariables(b).value;
      }
      ValueIgnores(a, v, s, env);
      ValueIgnores(b, v, s, env);
      assert Value(a, env[v := s]) == Value(a, env);
      assert Value(b, env[v := s]) == Value(b, env);
    case Literal(x) =>
      assert x.Identifier? ==> x.name != v;
    case _ =>
  }

  /** A product or quotient with `v` as exactly one operand, the other operand free of `v`. */
  predicate Linear(e: Expression, v: string)
  {
    e.Binary? && (e.operator == TokenType.Asterisk || e.operator == TokenType.Slash)
    && ((e.operand1 == Var(v) && Mentions(e.operand2, v) == Ok(false))
        || (e.operand2 == Var(v) && Mentions(e.operand1, v) == Ok(false)))
  }

  /** The operand of a linear node that is not `v`. */
  function Coefficient(e: Expression, v: string): Expression
    requires Linear(e, v)
  {
    if e.operand1 == Var(v) then e.operand2 else e.operand1
  }

  /** The solution the intended solver gives for a linear side against a literal, on either side of `=`. */
  lemma SolutionShape(binary: Expression, literal: Expression, v: string, solution: Expression)
    requires Linear(binary, v) && literal.Literal? && Mentions(literal, v) == Ok(false)
    requires SolveFor(binary, literal, v) == Ok(solution) || SolveFor(literal, binary, v) == Ok(solution)
    ensures var a := Coefficient(binary, v);
      solution == if binary.operator == TokenType.Asterisk then Binary(literal, a, TokenType.Slash)
        else if binary.operand1 == Var(v) then Binary(literal, a, TokenType.Asterisk)
        else Binary(a, literal, TokenType.Slash)
  {
  }

  lemma QuotientTimes(a: real, b: real)
    requires a != 0.0
    ensures Times(Over(b, a), a) == b && Times(a, Over(b, a)) == b && Over(Times(b, a), a) == b
  {
  }

  lemma QuotientOfQuotient(a: real, b: real)
    requires a != 0.0 && b != 0.0
    ensures Over(a, b) != 0.0 && Over(a, Over(a, b)) == b
  {
    assert a / (a / b) * (a / b) == a;
  }

  /**
   * The intended solver is correct: for `x*a = b`, `a*x = b`, `x/a = b`,
   * `a/x = b` and their mirrors, with `a` and `b` free of `x` and non-zero,
   * binding `x` to the value of the solution makes both sides equal.
   */
  lemma SolutionSatisfies(binary: Expression, literal: Expression, v: string, env: map<string, real>, solution: Expression, s: real)
    requires Linear(binary, v) && literal.Literal? && Mentions(literal, v) == Ok(false)
    requires SolveFor(binary, literal, v) == Ok(solution) || SolveFor(literal, binary, v) == Ok(solution)
    requires Value(solution, env) == Some(s)
    requires Value(Coefficient(binary, v), env).Some? && Value(Coefficient(binary, v), env).value != 0.0
    requires Value(literal, env).Some? && Value(literal, env).value != 0.0
    ensures Value(binary, env[v := s]) == Value(literal, env[v := s])
  {
    var a := Coefficient(binary, v);
    SolutionShape(binary, literal, v, solution);
    ValueIgnores(a, v, s, env);
    ValueIgnores(literal, v, s, env);
    var A, B := Value(a, env).value, Value(literal, env).value;
    var env' := env[v := s];
    assert Value(Var(v), env') == Some(s);
    QuotientTimes(A, B);
    if binary.operator == TokenType.Asterisk {
      assert s == Over(B, A);
    } else if binary.operand1 == Var(v) {
      assert s == Times(B, A);
    } else {
      assert s == Over(A, B);
      QuotientOfQuotient(A, B);
    }
  }
}
