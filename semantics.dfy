/**
 * What the interpreter does, as functions from a state to an outcome and the
 * next state: `run_statement` and its helpers, `eval_expression` and its
 * helpers, `call_function`, `interpret`, `run` and `run_script`. They call one
 * another (`import` runs a whole script, a function call runs its body), so they
 * form one recursive family. Hawk programs need not terminate, so each step of
 * that family spends one unit of `fuel`; running out is the `OutOfFuel` halt.
 *
 * The state is the `Interpreter` struct: the global map, the stack of local
 * scopes, the `loops` counter, the current line, the REPL flag, and the host's
 * state that the callbacks read and change. A failure is returned together with
 * the state at the moment it happened, as the struct is when `?` returns.
 */
module Semantics {
  import opened Outcomes
  import opened Common
  import Operations
  import StandardLib
  import Csv
  import PlaceholderCas
  import Lexing
  import Parsing

  /** One `HashMap<String, Object>` of variables. */
  type Scope = map<string, Object>

  /**
   * What stays fixed while a program runs: the host callbacks, the library,
   * and the order in which a `HashMap` of variables lists its keys.
   */
  datatype Config<!W> = Config(cb: Callbacks<W>, lib: StandardLib.Library, order: Scope -> seq<string>)

  /** A `HashMap` iteration order: every key of the map, each exactly once, and nothing else. */
  ghost predicate ListsEachKeyOnce(order: Scope -> seq<string>)
  {
    forall m: Scope ::
      (forall n :: n in order(m) <==> n in m) &&
      (forall i, j :: 0 <= i < j < |order(m)| ==> order(m)[i] != order(m)[j])
  }

  datatype State<W> = State(globals: Scope, scopes: seq<Scope>, loops: nat, line: nat, inRepl: bool, world: W)

  // The messages and names the interpreter uses.
  const SUB_OVERFLOW: string := "attempt to subtract with overflow"
  const ADD_OVERFLOW: string := "attempt to add with overflow"
  const NO_BINARY_OPERATOR: string := "Couldn't evaluate binary expression: operator does not match any binary operator"
  const NO_UNARY_OPERATOR: string := "Error: expected binary operator, instead found "
  const INDEX_NOT_INT: string := "Index must be an int"
  const INDEX_NEGATIVE: string := "Index must be 0 or above"
  const INDEX_NOT_ARRAY: string := "Can only index an array"
  const TWO_UNCERTAINTIES: string := "Functions can only have one argument with an uncertainty"
  const UNCERTAIN_CALL: string := "call_function_with_uncertainty"
  const NOT_FUNCTION_BEFORE: string := "The variable "
  const NOT_FUNCTION_AFTER: string := " does not appear to be a function. Did you define it? Is it in a file you haven't imported?"
  const RETURN_VARIABLE: string := "return"
  const NOT_FINDER: string := "Expected finder, instead got "
  const NO_VIABLE_EQUATION: string := "No viable equation found"
  const IF_NOT_BOOLEAN: string := "Expected boolean as condition for if statement, found "
  const IF_ELSE_NOT_BOOLEAN: string := "Expected boolean as condition for if else statement, found "
  const FILENAME_NOT_STRING: string := "Expected filename to be a string, found "
  const WHILE_NOT_BOOLEAN: string := "Expected boolean as condition for while loop, found "
  const WRITE_BUILTIN: string := "write"
  const NOT_DATATABLE: string := "Expected datatable, found "
  const DATATABLE_VARIABLE: string := "datatable"
  const UNREADABLE_FILE: string := "Couldn't read file "

  function Exhausted<T, W>(st: State<W>): (Result<T>, State<W>)
  {
    (Stop(OutOfFuel), st)
  }

  // ---------------------------------------------------------------------------
  // Variables (statement.rs).

  /** `get_variable` over `scopes` and `globals`: the topmost scope that holds the name, then the globals, else Null. */
  function Find(scopes: seq<Scope>, globals: Scope, name: string): Object
    decreases |scopes|
  {
    if |scopes| == 0 then (if name in globals then globals[name] else Object.Null)
    else if name in scopes[|scopes| - 1] then scopes[|scopes| - 1][name]
    else Find(scopes[..|scopes| - 1], globals, name)
  }

  function GetVariable<W>(st: State<W>, name: string): Object
  {
    Find(st.scopes, st.globals, name)
  }

  /** `insert_top_scope`: the top scope if there is one, else the globals. */
  function InsertTop<W>(st: State<W>, name: string, v: Object): State<W>
  {
    if |st.scopes| > 0 then
      var top := |st.scopes| - 1;
      st.(scopes := st.scopes[top := st.scopes[top][name := v]])
    else st.(globals := st.globals[name := v])
  }

  function Push<W>(st: State<W>): State<W>
  {
    st.(scopes := st.scopes + [map[]])
  }

  /** `scopes.pop()`, which does nothing on an empty stack. */
  function Pop<W>(st: State<W>): State<W>
  {
    if |st.scopes| == 0 then st else st.(scopes := st.scopes[..|st.scopes| - 1])
  }

  /** The values bound to `names[i..]` in order by `insert_top_scope`; a value missing from `values` panics. */
  function BindAll<W>(st: State<W>, names: seq<string>, values: seq<Object>, i: nat): (Result<()>, State<W>)
    requires i <= |names|
    decreases |names| - i
  {
    if i == |names| then (Ok(()), st)
    else if i >= |values| then (Panic(OUT_OF_BOUNDS), st)
    else BindAll(InsertTop(st, names[i], values[i]), names, values, i + 1)
  }

  /** The index of the topmost scope that holds `name`. */
  function Holder(scopes: seq<Scope>, name: string): (k: Option<nat>)
    ensures k.Some? ==> k.value < |scopes| && name in scopes[k.value]
    decreases |scopes|
  {
    if |scopes| == 0 then None
    else if name in scopes[|scopes| - 1] then Some(|scopes| - 1)
    else Holder(scopes[..|scopes| - 1], name)
  }

  /** The write-back of `run_array_assign`: the topmost scope that holds the name, else the globals. */
  function WriteBack<W>(st: State<W>, name: string, v: Object): State<W>
  {
    var k := Holder(st.scopes, name);
    if k.Some? then st.(scopes := st.scopes[k.value := st.scopes[k.value][name := v]])
    else st.(globals := st.globals[name := v])
  }

  function Nulls(k: nat): seq<Object>
  {
    seq(k, _ => Object.Null)
  }

  /** The array after `data[n] = val`, padded first with Nulls when `n` is past its end. */
  function Assigned(data: seq<Object>, n: nat, val: Object): seq<Object>
  {
    var padded := if n >= |data| then data + Nulls(n - |data| + 1) else data;
    padded[n := val]
  }

  /** `self.loops -= 1`, which panics at zero. */
  function Decremented<W>(st: State<W>): (Result<()>, State<W>)
  {
    if st.loops == 0 then (Panic(SUB_OVERFLOW), st)
    else (Ok(()), st.(loops := st.loops - 1))
  }

  /** `self.loops += 1` on a `usize`. */
  function Incremented<W>(st: State<W>): (Result<()>, State<W>)
  {
    if st.loops + 1 >= USIZE_LIMIT then (Panic(ADD_OVERFLOW), st)
    else (Ok(()), st.(loops := st.loops + 1))
  }

  /** The names of the Column variables of `top`, in the map's iteration order `keys`. */
  function ColumnNames(top: Scope, keys: seq<string>): seq<string>
  {
    if |keys| == 0 then []
    else
      var last := keys[|keys| - 1];
      ColumnNames(top, keys[..|keys| - 1]) + if last in top && top[last].Column? then [last] else []
  }

  /** The values of the variables `names` of `top`, in order. */
  function ValuesOf(top: Scope, names: seq<string>): seq<Object>
  {
    if |names| == 0 then []
    else
      var last := names[|names| - 1];
      ValuesOf(top, names[..|names| - 1]) + if last in top then [top[last]] else []
  }

  // ---------------------------------------------------------------------------
  // The pure dispatch of expression.rs.

  /** `eval_binary`'s table from operator token to operation. */
  function BinaryOp(op: TokenType, a: Object, b: Object, line: nat, m: Operations.DecimalMath): Result<Object>
  {
    match op
    case Plus => Operations.Arithmetic(Operations.Add, a, b, line, m)
    case Minus => Operations.Arithmetic(Operations.Subtract, a, b, line, m)
    case Asterisk => Operations.Arithmetic(Operations.Multiply, a, b, line, m)
    case Slash => Operations.Arithmetic(Operations.Divide, a, b, line, m)
    case Caret => Operations.Arithmetic(Operations.Exponent, a, b, line, m)
    case PlusMinus => Operations.Arithmetic(Operations.MakeUncertain, a, b, line, m)
    case EqualEqual => Operations.Compare(Operations.EqualEqual, a, b, line)
    case NotEqual => Operations.Compare(Operations.NotEqual, a, b, line)
    case Or => Operations.Connect(Operations.Or, a, b, line)
    case And => Operations.Connect(Operations.And, a, b, line)
    case LessThan => Operations.Compare(Operations.LessThan, a, b, line)
    case LessThanEqual => Operations.Compare(Operations.LessThanEqual, a, b, line)
    case GreaterThan => Operations.Compare(Operations.GreaterThan, a, b, line)
    case GreaterThanEqual => Operations.Compare(Operations.GreaterThanEqual, a, b, line)
    case _ => Fail(NO_BINARY_OPERATOR, line)
  }

  /** `eval_unary`'s table. */
  function UnaryOp(op: TokenType, a: Object, line: nat): Result<Object>
  {
    match op
    case Minus => Operations.Negate(a, line)
    case Not => Operations.LogicalNot(a, line)
    case _ => Fail(NO_UNARY_OPERATOR + TokenDebug(op), line)
  }

  /** The derived `Debug` text of a token type: its variant's name. */
  function TokenDebug(t: TokenType): string
  {
    match t
    case If => "If" case Else => "Else" case Loop => "Loop" case While => "While" case For => "For"
    case Break => "Break" case Class => "Class" case Super => "Super" case This => "This" case Let => "Let"
    case Null => "Null" case Function => "Function" case Return => "Return" case Print => "Print"
    case Import => "Import" case Process => "Process" case Finder => "Finder" case Find => "Find"
    case Equation => "Equation" case Identifier => "Identifier" case String => "String" case Int => "Int"
    case Float => "Float" case True => "True" case False => "False"
    case ParenthesisLeft => "ParenthesisLeft" case ParenthesisRight => "ParenthesisRight"
    case BraceLeft => "BraceLeft" case BraceRight => "BraceRight"
    case BracketLeft => "BracketLeft" case BracketRight => "BracketRight"
    case Comma => "Comma" case Dot => "Dot" case Minus => "Minus" case Plus => "Plus"
    case Semicolon => "Semicolon" case Slash => "Slash" case Asterisk => "Asterisk" case Colon => "Colon"
    case Caret => "Caret" case E => "E" case Abs => "Abs" case PlusMinus => "PlusMinus"
    case QuestionMark => "QuestionMark" case ExclamationMark => "ExclamationMark" case Assign => "Assign"
    case EqualEqual => "EqualEqual" case GreaterThan => "GreaterThan" case GreaterThanEqual => "GreaterThanEqual"
    case LessThan => "LessThan" case LessThanEqual => "LessThanEqual" case NotEqual => "NotEqual"
    case And => "And" case Or => "Or" case Not => "Not" case FatArrow => "FatArrow"
    case NewLine => "NewLine" case EOF => "EOF" case DecimalNumber => "Decimal"
  }

  /** `eval_literal`: an identifier is looked up, any other literal is its own value. */
  function LiteralValue<W>(st: State<W>, obj: Object): Object
  {
    if obj.Identifier? then GetVariable(st, obj.name) else obj
  }

  /** `array[index as usize]` of `eval_arrayindex`, after the checks on the index and the target. */
  function IndexInto(target: Object, index: Object, line: nat): Result<Object>
  {
    if !index.Int? then Fail(INDEX_NOT_INT, line)
    else if index.i < 0 then Fail(INDEX_NEGATIVE, line)
    else if !target.Array? then Fail(INDEX_NOT_ARRAY, line)
    else if ToUsize(index.i) < |target.items| then Ok(target.items[ToUsize(index.i)])
    else Panic(OUT_OF_BOUNDS)
  }

  /** Whether an equation of a finder mentions a given variable or the target, from its variable list. */
  predicate Relevant(vars: seq<string>, given: seq<(string, Expression)>, toFind: string)
  {
    exists k :: 0 <= k < |vars| && (vars[k] == toFind || IsGiven(given, vars[k]))
  }

  predicate IsGiven(given: seq<(string, Expression)>, v: string)
  {
    exists k :: 0 <= k < |given| && given[k].0 == v
  }

  /**
   * The equation `eval_finder_call` settles on: the last of `eqs[i..]` whose variables
   * mention a given name or the target (`found` so far otherwise); the variable
   * list of every equation is computed, and its error passed on.
   */
  function Viable(eqs: seq<(Expression, Expression)>, given: seq<(string, Expression)>, toFind: string,
                  i: nat, found: Option<(Expression, Expression)>): Result<Option<(Expression, Expression)>>
    requires i <= |eqs|
    decreases |eqs| - i
  {
    if i == |eqs| then Ok(found)
    else
      var lhs :- PlaceholderCas.GetVariables(eqs[i].0);
      var rhs :- PlaceholderCas.GetVariables(eqs[i].1);
      Viable(eqs, given, toFind, i + 1, if Relevant(lhs + rhs, given, toFind) then Some(eqs[i]) else found)
  }

  // ---------------------------------------------------------------------------
  // The recursive family.

  /** `eval_expression`. */
  function Eval<W>(c: Config<W>, st: State<W>, e: Expression, fuel: nat): (Result<Object>, State<W>)
    decreases fuel, 0
  {
    if fuel == 0 then Exhausted(st)
    else
      match e
      case Binary(o1, o2, op) =>
        var (a, st1) := Eval(c, st, o1, fuel - 1);
        if !a.Ok? then (a, st1)
        else
          var (b, st2) := Eval(c, st1, o2, fuel - 1);
          if !b.Ok? then (b, st2)
          else (BinaryOp(op, a.value, b.value, st2.line, c.lib.math), st2)
      case Unary(o, op) =>
        var (a, st1) := Eval(c, st, o, fuel - 1);
        if !a.Ok? then (a, st1) else (UnaryOp(op, a.value, st1.line), st1)
      case Literal(obj) => (Ok(LiteralValue(st, obj)), st)
      case FunctionCall(id, args) => EvalCall(c, st, id, args, fuel - 1)
      case FinderCall(id, given, toFind) => EvalFinder(c, st, id, given, toFind, fuel - 1)
      case Array(es) =>
        var (vs, st1) := EvalAll(c, st, es, [], fuel - 1);
        (if vs.Ok? then Ok(Object.Array(vs.value)) else vs.PropagateFailure(), st1)
      case ArrayIndex(id, index) =>
        var (ix, st1) := Eval(c, st, index, fuel - 1);
        if !ix.Ok? then (ix, st1)
        else (IndexInto(GetVariable(st1, id), ix.value, st1.line), st1)
      case _ => (Ok(Object.Null), st)
  }

  /** The expressions `es[|done|..]` evaluated in order after the values `done` of those before them. */
  function EvalAll<W>(c: Config<W>, st: State<W>, es: seq<Expression>, done: seq<Object>, fuel: nat)
    : (Result<seq<Object>>, State<W>)
    requires |done| <= |es|
    decreases fuel, |es| - |done|
  {
    if fuel == 0 then Exhausted(st)
    else if |done| == |es| then (Ok(done), st)
    else
      var (v, st1) := Eval(c, st, es[|done|], fuel - 1);
      if !v.Ok? then (v.PropagateFailure(), st1)
      else EvalAll(c, st1, es, done + [v.value], fuel)
  }

  /**
   * The first pass of `eval_function_call` over `args[i..]`: evaluates each,
   * fails at a second Uncertain, and reports whether an Uncertain and whether a
   * Column was seen.
   */
  function ScanArgs<W>(c: Config<W>, st: State<W>, args: seq<Expression>, i: nat, uncertain: bool, column: bool, fuel: nat)
    : (Result<(bool, bool)>, State<W>)
    requires i <= |args|
    decreases fuel, |args| - i
  {
    if fuel == 0 then Exhausted(st)
    else if i == |args| then (Ok((uncertain, column)), st)
    else
      var (v, st1) := Eval(c, st, args[i], fuel - 1);
      if !v.Ok? then (v.PropagateFailure(), st1)
      else if v.value.Uncertain? && uncertain then
        (Fail(TWO_UNCERTAINTIES, st1.line), st1)
      else ScanArgs(c, st1, args, i + 1, uncertain || v.value.Uncertain?, column || v.value.Column?, fuel)
  }

  /**
   * `eval_function_call`: with a Column argument the call gives Null; an
   * Uncertain argument goes to `call_function_with_uncertainty`, not part of
   * this model; otherwise the arguments are evaluated a second time and passed
   * to `call_function`.
   */
  function EvalCall<W>(c: Config<W>, st: State<W>, id: string, args: seq<Expression>, fuel: nat): (Result<Object>, State<W>)
    decreases fuel, 0
  {
    if fuel == 0 then Exhausted(st)
    else
      var (scan, st1) := ScanArgs(c, st, args, 0, false, false, fuel - 1);
      if !scan.Ok? then (scan.PropagateFailure(), st1)
      else if scan.value.1 then (Ok(Object.Null), st1)
      else if scan.value.0 then (Stop(Unmodelled(UNCERTAIN_CALL)), st1)
      else
        var (vs, st2) := EvalAll(c, st1, args, [], fuel - 1);
        if !vs.Ok? then (vs.PropagateFailure(), st2)
        else CallFunction(c, st2, id, vs.value, fuel - 1)
  }

  /**
   * `call_function`: a Function variable runs directly; otherwise the standard
   * library is asked, a Hawk function it returns is stored in the globals and
   * run, another value it returns is the result, and nothing found is an error.
   */
  function CallFunction<W>(c: Config<W>, st: State<W>, id: string, args: seq<Object>, fuel: nat): (Result<Object>, State<W>)
    decreases fuel, 0
  {
    if fuel == 0 then Exhausted(st)
    else
      var fn := GetVariable(st, id);
      if fn.Function? then Invoke(c, st, fn.params, fn.block, args, fuel - 1)
      else
        var std := StandardLib.RunFnStd(c.lib, c.cb, st.world, st.line, id, args);
        if !std.Ok? then (std.PropagateFailure(), st)
        else
          var st1 := st.(world := std.value.1);
          match std.value.0
          case Some(found) =>
            if found.Function? then
              Invoke(c, st1.(globals := st1.globals[id := found]), found.params, found.block, args, fuel - 1)
            else (Ok(found), st1)
          case None =>
            (Fail(NOT_FUNCTION_BEFORE + id + NOT_FUNCTION_AFTER,
                  st1.line), st1)
  }

  /** The body of a call: a new scope, the parameters bound in order, the block run, `return` read, the scope popped. */
  function Invoke<W>(c: Config<W>, st: State<W>, params: seq<string>, block: Statement, args: seq<Object>, fuel: nat)
    : (Result<Object>, State<W>)
    decreases fuel, 0
  {
    if fuel == 0 then Exhausted(st)
    else
      var (bound, st1) := BindAll(Push(st), params, args, 0);
      if !bound.Ok? then (bound.PropagateFailure(), st1)
      else
        var (ran, st2) := Exec(c, st1, block, fuel - 1);
        if !ran.Ok? then (ran.PropagateFailure(), st2)
        else (Ok(GetVariable(st2, RETURN_VARIABLE)), Pop(st2))
  }

  /**
   * `eval_finder_call`: the finder (the standard library's first), a new scope,
   * the viable equation, the given values bound in the new scope, and the
   * rearranged equation evaluated there.
   */
  function EvalFinder<W>(c: Config<W>, st: State<W>, id: string, given: seq<(string, Expression)>, toFind: string, fuel: nat)
    : (Result<Object>, State<W>)
    decreases fuel, 0
  {
    if fuel == 0 then Exhausted(st)
    else
      var finder := if c.lib.hawkFinder(id).Some? then c.lib.hawkFinder(id).value else GetVariable(st, id);
      if !finder.Finder? then (Fail(NOT_FINDER + Operations.Render(finder), st.line), st)
      else
        var st1 := Push(st);
        var eq := Viable(finder.equations, given, toFind, 0, None);
        if !eq.Ok? then (eq.PropagateFailure(), st1)
        else if eq.value.None? then (Fail(NO_VIABLE_EQUATION, st1.line), st1)
        else
          var (bound, st2) := BindGiven(c, st1, given, 0, fuel - 1);
          if !bound.Ok? then (bound.PropagateFailure(), st2)
          else
            var solved := PlaceholderCas.SolveForAsWritten(eq.value.value.0, eq.value.value.1, toFind);
            if !solved.Ok? then (solved.PropagateFailure(), st2)
            else
              var (r, st3) := Eval(c, st2, solved.value, fuel - 1);
              if !r.Ok? then (r, st3) else (r, Pop(st3))
  }

  /** The given values of a finder call from `given[i..]`, each evaluated and then bound in the top scope. */
  function BindGiven<W>(c: Config<W>, st: State<W>, given: seq<(string, Expression)>, i: nat, fuel: nat)
    : (Result<()>, State<W>)
    requires i <= |given|
    decreases fuel, |given| - i
  {
    if fuel == 0 then Exhausted(st)
    else if i == |given| then (Ok(()), st)
    else
      var (v, st1) := Eval(c, st, given[i].1, fuel - 1);
      if !v.Ok? then (v.PropagateFailure(), st1)
      else BindGiven(c, InsertTop(st1, given[i].0, v.value), given, i + 1, fuel)
  }

  /** `(self.output_fn)(value.user_print(self.line)?)`. */
  function Output<W>(c: Config<W>, st: State<W>, v: Object): (Result<()>, State<W>)
  {
    var text := c.lib.userPrint(v, st.line);
    if !text.Ok? then (text.PropagateFailure(), st)
    else (Ok(()), st.(world := c.cb.output(st.world, text.value)))
  }

  /** `run_statement`. */
  function Exec<W>(c: Config<W>, st: State<W>, s: Statement, fuel: nat): (Result<()>, State<W>)
    decreases fuel, 0
  {
    if fuel == 0 then Exhausted(st)
    else
      match s
      case Print(e) =>
        var (v, st1) := Eval(c, st, e, fuel - 1);
        if !v.Ok? then (v.PropagateFailure(), st1) else Output(c, st1, v.value)
      case Definition(name, e) =>
        var (v, st1) := Eval(c, st, e, fuel - 1);
        if !v.Ok? then (v.PropagateFailure(), st1) else (Ok(()), InsertTop(st1, name, v.value))
      case ArrayAssign(name, idx, e) => ExecArrayAssign(c, st, name, idx, e, fuel - 1)
      case While(cond, block) =>
        var (inc, st1) := Incremented(st);
        if !inc.Ok? then (inc, st1) else WhileFrom(c, st1, cond, block, st1.loops, fuel - 1)
      case Loop(block) =>
        var (inc, st1) := Incremented(st);
        if !inc.Ok? then (inc, st1) else LoopFrom(c, st1, block, st1.loops, fuel - 1)
      case Break => Decremented(st)
      case If(cond, block) =>
        var (v, st1) := Eval(c, st, cond, fuel - 1);
        if !v.Ok? then (v.PropagateFailure(), st1)
        else if !v.value.Boolean? then
          (Fail(IF_NOT_BOOLEAN + Operations.Render(v.value), st1.line), st1)
        else if v.value.b then Exec(c, st1, block, fuel - 1)
        else (Ok(()), st1)
      case IfElse(cond, ifBlock, elseBlock) =>
        var (v, st1) := Eval(c, st, cond, fuel - 1);
        if !v.Ok? then (v.PropagateFailure(), st1)
        else if !v.value.Boolean? then
          (Fail(IF_ELSE_NOT_BOOLEAN + Operations.Render(v.value), st1.line), st1)
        else Exec(c, st1, if v.value.b then ifBlock else elseBlock, fuel - 1)
      case Block(body) => ExecAll(c, st, body, 0, fuel - 1)
      case Function(id, params, block) => (Ok(()), InsertTop(st, id, Object.Function(params, block)))
      case Finder(id, equations) => (Ok(()), InsertTop(st, id, Object.Finder(equations)))
      case Return(e) =>
        var (v, st1) := Eval(c, st, e, fuel - 1);
        if !v.Ok? then (v.PropagateFailure(), st1) else (Ok(()), InsertTop(st1, RETURN_VARIABLE, v.value))
      case Import(e) =>
        var (v, st1) := Eval(c, st, e, fuel - 1);
        if !v.Ok? then (v.PropagateFailure(), st1)
        else if !v.value.String? then
          (Fail(FILENAME_NOT_STRING + Operations.Render(v.value), st1.line), st1)
        else
          var (g, w) := RunScript(c, v.value.s, st1.globals, st1.world, fuel - 1);
          if g.Ok? then (Ok(()), st1.(globals := g.value, world := w)) else (g.PropagateFailure(), st1.(world := w))
      case Expression(e) =>
        var (v, st1) := Eval(c, st, e, fuel - 1);
        if !v.Ok? then (v.PropagateFailure(), st1)
        else if st1.inRepl then Output(c, st1, v.value)
        else (Ok(()), st1)
      case Process(readfile, writefile, block) => ExecProcess(c, st, readfile, writefile, block, fuel - 1)
      case Line =>
        if st.line + 1 >= USIZE_LIMIT then (Panic(ADD_OVERFLOW), st)
        else (Ok(()), st.(line := st.line + 1))
      case EOF => (Ok(()), st)
  }

  /** `run_block`, and the statement loop of `interpret`: `body[i..]` in order, stopping at the first failure. */
  function ExecAll<W>(c: Config<W>, st: State<W>, body: seq<Statement>, i: nat, fuel: nat): (Result<()>, State<W>)
    requires i <= |body|
    decreases fuel, |body| - i
  {
    if fuel == 0 then Exhausted(st)
    else if i == |body| then (Ok(()), st)
    else
      var (r, st1) := Exec(c, st, body[i], fuel - 1);
      if !r.Ok? then (r, st1) else ExecAll(c, st1, body, i + 1, fuel)
  }

  /**
   * `run_array_assign`: only an Array variable is assigned; the index and the
   * value are evaluated, and an Int index writes the padded array back.
   */
  function ExecArrayAssign<W>(c: Config<W>, st: State<W>, name: string, idx: Expression, e: Expression, fuel: nat)
    : (Result<()>, State<W>)
    decreases fuel, 0
  {
    if fuel == 0 then Exhausted(st)
    else
      var target := GetVariable(st, name);
      if !target.Array? then (Ok(()), st)
      else
        var (i, st1) := Eval(c, st, idx, fuel - 1);
        if !i.Ok? then (i.PropagateFailure(), st1)
        else
          var (v, st2) := Eval(c, st1, e, fuel - 1);
          if !v.Ok? then (v.PropagateFailure(), st2)
          else if !i.value.Int? then (Ok(()), st2)
          else (Ok(()), WriteBack(st2, name, Object.Array(Assigned(target.items, ToUsize(i.value.i), v.value))))
  }

  /**
   * The rounds of `run_while` for the loop numbered `current`: the body runs
   * while the condition holds and no `break` has lowered `loops`; a false
   * condition lowers `loops` itself.
   */
  function WhileFrom<W>(c: Config<W>, st: State<W>, cond: Expression, block: Statement, current: nat, fuel: nat)
    : (Result<()>, State<W>)
    decreases fuel, 0
  {
    if fuel == 0 then Exhausted(st)
    else
      var (v, st1) := Eval(c, st, cond, fuel - 1);
      if !v.Ok? then (v.PropagateFailure(), st1)
      else if !v.value.Boolean? then
        (Fail(WHILE_NOT_BOOLEAN + Operations.Render(v.value), st1.line), st1)
      else if v.value.b && st1.loops == current then
        var (r, st2) := Exec(c, st1, block, fuel - 1);
        if !r.Ok? then (r, st2) else WhileFrom(c, st2, cond, block, current, fuel - 1)
      else if st1.loops != current then (Ok(()), st1)
      else Decremented(st1)
  }

  /** The rounds of `run_loop` for the loop numbered `current`: the body runs until a `break` changes `loops`. */
  function LoopFrom<W>(c: Config<W>, st: State<W>, block: Statement, current: nat, fuel: nat): (Result<()>, State<W>)
    decreases fuel, 0
  {
    if fuel == 0 then Exhausted(st)
    else if st.loops != current then (Ok(()), st)
    else
      var (r, st1) := Exec(c, st, block, fuel - 1);
      if !r.Ok? then (r, st1) else LoopFrom(c, st1, block, current, fuel - 1)
  }

  /**
   * `run_process`: a new scope (never popped), the CSV file opened into it, the
   * block run, and the Column variables of the top scope written out as a
   * datatable through the `write` builtin.
   */
  function ExecProcess<W>(c: Config<W>, st: State<W>, readfile: Expression, writefile: Expression, block: Statement, fuel: nat)
    : (Result<()>, State<W>)
    decreases fuel, 0
  {
    if fuel == 0 then Exhausted(st)
    else
      var (rf, st1) := Eval(c, Push(st), readfile, fuel - 1);
      if !rf.Ok? then (rf.PropagateFailure(), st1)
      else ProcessFile(c, st1, rf.value, writefile, block, fuel - 1)
  }

  /** `run_process` once the input file name `rf` is evaluated in the new scope: a string names the CSV file to open. */
  function ProcessFile<W>(c: Config<W>, st: State<W>, rf: Object, writefile: Expression, block: Statement, fuel: nat)
    : (Result<()>, State<W>)
    decreases fuel, 2
  {
    var (loaded, st1) := if rf.String? then OpenDatatable(c, st, rf.s) else (Ok(()), st);
    if !loaded.Ok? then (loaded, st1)
    else
      var (ran, st2) := Exec(c, st1, block, fuel);
      if !ran.Ok? then (ran, st2) else WriteProcessed(c, st2, writefile, fuel)
  }

  /** The end of `run_process`: the Column variables of the top scope written as a datatable to the file `writefile` names. */
  function WriteProcessed<W>(c: Config<W>, st: State<W>, writefile: Expression, fuel: nat): (Result<()>, State<W>)
    decreases fuel, 1
  {
    if |st.scopes| == 0 then (Panic(SUB_OVERFLOW), st)
    else
      var top := st.scopes[|st.scopes| - 1];
      var names := ColumnNames(top, c.order(top));
      var (wf, st1) := Eval(c, st, writefile, fuel);
      if !wf.Ok? then (wf.PropagateFailure(), st1)
      else WriteDatatable(c, st1, wf.value, names, ValuesOf(top, names))
  }

  /** The call of the `write` builtin that ends `run_process`. */
  function WriteDatatable<W>(c: Config<W>, st: State<W>, filename: Object, names: seq<string>, values: seq<Object>)
    : (Result<()>, State<W>)
  {
    var written := StandardLib.RunFnStd(c.lib, c.cb, st.world, st.line, WRITE_BUILTIN, [filename, DataTable(names, values)]);
    if !written.Ok? then (written.PropagateFailure(), st)
    else (Ok(()), st.(world := written.value.1))
  }

  /** `open_datatable`: the table read from the file, bound as `datatable` and column by column in the top scope. */
  function OpenDatatable<W>(c: Config<W>, st: State<W>, filename: string): (Result<()>, State<W>)
  {
    var table := Csv.ReadTable(c.cb, st.world, filename, st.line);
    if !table.Ok? then (table.PropagateFailure(), st)
    else if !table.value.DataTable? then
      (Fail(NOT_DATATABLE + Operations.Render(table.value), st.line), st)
    else BindAll(InsertTop(st, DATATABLE_VARIABLE, table.value), table.value.names, table.value.data, 0)
  }

  /** The state `interpret` starts from. */
  function Initial<W>(globals: Scope, inRepl: bool, world: W): State<W>
  {
    State(globals, [], 0, 1, inRepl, world)
  }

  /** `Interpreter::interpret`: the statements in order from the initial state; the globals, or the first failure. */
  function Interpret<W>(c: Config<W>, statements: seq<Statement>, globals: Scope, inRepl: bool, world: W, fuel: nat)
    : (Result<Scope>, W)
    decreases fuel, 1
  {
    if fuel == 0 then (Stop(OutOfFuel), world)
    else
      var (r, st) := ExecAll(c, Initial(globals, inRepl, world), statements, 0, fuel - 1);
      (if r.Ok? then Ok(st.globals) else r.PropagateFailure(), st.world)
  }

  /** `run`: lex, parse, interpret; a failure of any stage is passed on. */
  function Run<W>(c: Config<W>, source: string, globals: Scope, inRepl: bool, world: W, fuel: nat): (Result<Scope>, W)
    decreases fuel, 2
  {
    var tokens := Lexing.Lex(Lexing.Graphemes(source));
    if !tokens.Ok? then (tokens.PropagateFailure(), world)
    else
      var statements := Parsing.Parsed(tokens.value);
      if !statements.Ok? then (statements.PropagateFailure(), world)
      else Interpret(c, statements.value, globals, inRepl, world, fuel)
  }

  /**
   * `run_script`: the file's source run outside the REPL; a file that cannot
   * be read or a script that fails is reported through `err` and gives an
   * empty map. Only a halt is passed on.
   */
  function RunScript<W>(c: Config<W>, filename: string, globals: Scope, world: W, fuel: nat): (Result<Scope>, W)
    decreases fuel, 3
  {
    match c.cb.filein(world, filename)
    case None => (Ok(map[]), c.cb.err(world, UNREADABLE_FILE + filename, 0))
    case Some(source) =>
      var (r, w) := Run(c, source, globals, false, world, fuel);
      if r.Ok? then (r, w)
      else if r.Err? then (Ok(map[]), c.cb.err(w, r.error.message, r.error.line))
      else (r, w)
  }
}
