/**
 * One step of each member of the recursive family of `Semantics`, for the
 * methods of the `Interpreter` class. Most of them take the outcome of the
 * first evaluation a member makes, `(v, st1)`, and state what the member then
 * gives; the methods call them with the outcome their own call returned, so
 * that no proof unfolds the whole family.
 */
module SemanticsSteps {
  import opened Outcomes
  import opened Common
  import opened Semantics
  import Operations
  import StandardLib
  import PlaceholderCas

  // ---------------------------------------------------------------------------
  // Expressions.

  lemma EvalBinaryStep<W>(c: Config<W>, st: State<W>, o1: Expression, o2: Expression, op: TokenType, fuel: nat,
                          a: Result<Object>, st1: State<W>)
    requires fuel > 0 && Eval(c, st, o1, fuel - 1) == (a, st1)
    ensures Eval(c, st, Expression.Binary(o1, o2, op), fuel) ==
      if !a.Ok? then (a, st1)
      else
        var (b, st2) := Eval(c, st1, o2, fuel - 1);
        if !b.Ok? then (b, st2) else (BinaryOp(op, a.value, b.value, st2.line, c.lib.math), st2)
  {
  }

  lemma EvalUnaryStep<W>(c: Config<W>, st: State<W>, o: Expression, op: TokenType, fuel: nat, a: Result<Object>, st1: State<W>)
    requires fuel > 0 && Eval(c, st, o, fuel - 1) == (a, st1)
    ensures Eval(c, st, Expression.Unary(o, op), fuel) ==
      if !a.Ok? then (a, st1) else (UnaryOp(op, a.value, st1.line), st1)
  {
  }

  lemma EvalLiteralStep<W>(c: Config<W>, st: State<W>, obj: Object, fuel: nat)
    requires fuel > 0
    ensures Eval(c, st, Expression.Literal(obj), fuel) == (Ok(LiteralValue(st, obj)), st)
  {
  }

  lemma EvalCallStep<W>(c: Config<W>, st: State<W>, id: string, args: seq<Expression>, fuel: nat)
    requires fuel > 0
    ensures Eval(c, st, Expression.FunctionCall(id, args), fuel) == EvalCall(c, st, id, args, fuel - 1)
  {
  }

  lemma EvalFinderStep<W>(c: Config<W>, st: State<W>, id: string, given: seq<(string, Expression)>, toFind: string, fuel: nat)
    requires fuel > 0
    ensures Eval(c, st, Expression.FinderCall(id, given, toFind), fuel) == EvalFinder(c, st, id, given, toFind, fuel - 1)
  {
  }

  lemma EvalArrayStep<W>(c: Config<W>, st: State<W>, es: seq<Expression>, fuel: nat, vs: Result<seq<Object>>, st1: State<W>)
    requires fuel > 0 && EvalAll(c, st, es, [], fuel - 1) == (vs, st1)
    ensures Eval(c, st, Expression.Array(es), fuel) ==
      (if vs.Ok? then Ok(Object.Array(vs.value)) else vs.PropagateFailure(), st1)
  {
  }

  lemma EvalIndexStep<W>(c: Config<W>, st: State<W>, id: string, index: Expression, fuel: nat, ix: Result<Object>, st1: State<W>)
    requires fuel > 0 && Eval(c, st, index, fuel - 1) == (ix, st1)
    ensures Eval(c, st, Expression.ArrayIndex(id, index), fuel) ==
      if !ix.Ok? then (ix, st1) else (IndexInto(GetVariable(st1, id), ix.value, st1.line), st1)
  {
  }

  lemma EvalAllStep<W>(c: Config<W>, st: State<W>, es: seq<Expression>, done: seq<Object>, fuel: nat, v: Result<Object>, st1: State<W>)
    requires |done| < |es|
    requires fuel > 0 && Eval(c, st, es[|done|], fuel - 1) == (v, st1)
    ensures EvalAll(c, st, es, done, fuel) ==
      if !v.Ok? then (v.PropagateFailure(), st1) else EvalAll(c, st1, es, done + [v.value], fuel)
  {
  }

  lemma ScanArgsStep<W>(c: Config<W>, st: State<W>, args: seq<Expression>, i: nat, uncertain: bool, column: bool, fuel: nat,
                        v: Result<Object>, st1: State<W>)
    requires i < |args|
    requires fuel > 0 && Eval(c, st, args[i], fuel - 1) == (v, st1)
    ensures ScanArgs(c, st, args, i, uncertain, column, fuel) ==
      if !v.Ok? then (v.PropagateFailure(), st1)
      else if v.value.Uncertain? && uncertain then
        (Fail(TWO_UNCERTAINTIES, st1.line), st1)
      else ScanArgs(c, st1, args, i + 1, uncertain || v.value.Uncertain?, column || v.value.Column?, fuel)
  {
  }

  lemma EvalCallUnfold<W>(c: Config<W>, st: State<W>, id: string, args: seq<Expression>, fuel: nat)
    requires fuel > 0
    ensures EvalCall(c, st, id, args, fuel) ==
      var (scan, st1) := ScanArgs(c, st, args, 0, false, false, fuel - 1);
      if !scan.Ok? then (scan.PropagateFailure(), st1)
      else if scan.value.1 then (Ok(Object.Null), st1)
      else if scan.value.0 then (Stop(Unmodelled(UNCERTAIN_CALL)), st1)
      else
        var (vs, st2) := EvalAll(c, st1, args, [], fuel - 1);
        if !vs.Ok? then (vs.PropagateFailure(), st2) else CallFunction(c, st2, id, vs.value, fuel - 1)
  {
  }

  lemma CallFunctionUnfold<W>(c: Config<W>, st: State<W>, id: string, args: seq<Object>, fuel: nat)
    requires fuel > 0
    ensures CallFunction(c, st, id, args, fuel) ==
      var fn := GetVariable(st, id);
      if fn.Function? then Invoke(c, st, fn.params, fn.block, args, fuel - 1)
      else
        var std := StandardLib.RunFnStd(c.lib, c.cb, st.world, st.line, id, args);
        if !std.Ok? then (std.PropagateFailure(), st)
        else
          var st1 := st.(world := std.value.1);
          match std.value.0
          case Some(found) =>
            if found.Function? then
              Invoke(c, st1.(globals := st1.globals[id := found]), found.params, found.block, args, fuel - 1)
            else (Ok(found), st1)
          case None =>
            (Fail(NOT_FUNCTION_BEFORE + id + NOT_FUNCTION_AFTER, st1.line), st1)
  {
  }

  lemma InvokeStep<W>(c: Config<W>, st: State<W>, params: seq<string>, block: Statement, args: seq<Object>, fuel: nat,
                      bound: Result<()>, st1: State<W>)
    requires fuel > 0 && BindAll(Push(st), params, args, 0) == (bound, st1)
    ensures Invoke(c, st, params, block, args, fuel) ==
      if !bound.Ok? then (bound.PropagateFailure(), st1)
      else
        var (ran, st2) := Exec(c, st1, block, fuel - 1);
        if !ran.Ok? then (ran.PropagateFailure(), st2)
        else (Ok(GetVariable(st2, RETURN_VARIABLE)), Pop(st2))
  {
  }

  lemma EvalFinderUnfold<W>(c: Config<W>, st: State<W>, id: string, given: seq<(string, Expression)>, toFind: string, fuel: nat)
    requires fuel > 0
    ensures EvalFinder(c, st, id, given, toFind, fuel) ==
      var finder := if c.lib.hawkFinder(id).Some? then c.lib.hawkFinder(id).value else GetVariable(st, id);
      if !finder.Finder? then (Fail(NOT_FINDER + Operations.Render(finder), st.line), st)
      else
        var st1 := Push(st);
        var eq := Viable(finder.equations, given, toFind, 0, None);
        if !eq.Ok? then (eq.PropagateFailure(), st1)
        else if eq.value.None? then (Fail(NO_VIABLE_EQUATION, st1.line), st1)
        else
          var (bound, st2) := BindGiven(c, st1, given, 0, fuel - 1);
          if !bound.Ok? then (bound.PropagateFailure(), st2)
          else
            var solved := PlaceholderCas.SolveForAsWritten(eq.value.value.0, eq.value.value.1, toFind);
            if !solved.Ok? then (solved.PropagateFailure(), st2)
            else
              var (r, st3) := Eval(c, st2, solved.value, fuel - 1);
              if !r.Ok? then (r, st3) else (r, Pop(st3))
  {
  }

  lemma BindGivenStep<W>(c: Config<W>, st: State<W>, given: seq<(string, Expression)>, i: nat, fuel: nat, v: Result<Object>, st1: State<W>)
    requires i < |given|
    requires fuel > 0 && Eval(c, st, given[i].1, fuel - 1) == (v, st1)
    ensures BindGiven(c, st, given, i, fuel) ==
      if !v.Ok? then (v.PropagateFailure(), st1)
      else BindGiven(c, InsertTop(st1, given[i].0, v.value), given, i + 1, fuel)
  {
  }

  // ---------------------------------------------------------------------------
  // Statements.

  lemma ExecPrintStep<W>(c: Config<W>, st: State<W>, e: Expression, fuel: nat, v: Result<Object>, st1: State<W>)
    requires fuel > 0 && Eval(c, st, e, fuel - 1) == (v, st1)
    ensures Exec(c, st, Statement.Print(e), fuel) ==
      if !v.Ok? then (v.PropagateFailure(), st1) else Output(c, st1, v.value)
  {
  }

  lemma ExecDefinitionStep<W>(c: Config<W>, st: State<W>, name: string, e: Expression, fuel: nat, v: Result<Object>, st1: State<W>)
    requires fuel > 0 && Eval(c, st, e, fuel - 1) == (v, st1)
    ensures Exec(c, st, Statement.Definition(name, e), fuel) ==
      if !v.Ok? then (v.PropagateFailure(), st1) else (Ok(()), InsertTop(st1, name, v.value))
  {
  }

  lemma ExecArrayAssignStep<W>(c: Config<W>, st: State<W>, name: string, idx: Expression, e: Expression, fuel: nat)
    requires fuel > 0
    ensures Exec(c, st, Statement.ArrayAssign(name, idx, e), fuel) == ExecArrayAssign(c, st, name, idx, e, fuel - 1)
  {
  }

  lemma ExecWhileStep<W>(c: Config<W>, st: State<W>, cond: Expression, block: Statement, fuel: nat)
    requires fuel > 0
    ensures Exec(c, st, Statement.While(cond, block), fuel) ==
      var (inc, st1) := Incremented(st);
      if !inc.Ok? then (inc, st1) else WhileFrom(c, st1, cond, block, st1.loops, fuel - 1)
  {
  }

  lemma ExecLoopStep<W>(c: Config<W>, st: State<W>, block: Statement, fuel: nat)
    requires fuel > 0
    ensures Exec(c, st, Statement.Loop(block), fuel) ==
      var (inc, st1) := Incremented(st);
      if !inc.Ok? then (inc, st1) else LoopFrom(c, st1, block, st1.loops, fuel - 1)
  {
  }

  lemma ExecBreakStep<W>(c: Config<W>, st: State<W>, fuel: nat)
    requires fuel > 0
    ensures Exec(c, st, Statement.Break, fuel) == Decremented(st)
  {
  }

  lemma ExecIfStep<W>(c: Config<W>, st: State<W>, cond: Expression, block: Statement, fuel: nat, v: Result<Object>, st1: State<W>)
    requires fuel > 0 && Eval(c, st, cond, fuel - 1) == (v, st1)
    ensures Exec(c, st, Statement.If(cond, block), fuel) ==
      if !v.Ok? then (v.PropagateFailure(), st1)
      else if !v.value.Boolean? then
        (Fail(IF_NOT_BOOLEAN + Operations.Render(v.value), st1.line), st1)
      else if v.value.b then Exec(c, st1, block, fuel - 1)
      else (Ok(()), st1)
  {
  }

  lemma ExecIfElseStep<W>(c: Config<W>, st: State<W>, cond: Expression, ifBlock: Statement, elseBlock: Statement, fuel: nat,
                          v: Result<Object>, st1: State<W>)
    requires fuel > 0 && Eval(c, st, cond, fuel - 1) == (v, st1)
    ensures Exec(c, st, Statement.IfElse(cond, ifBlock, elseBlock), fuel) ==
      if !v.Ok? then (v.PropagateFailure(), st1)
      else if !v.value.Boolean? then
        (Fail(IF_ELSE_NOT_BOOLEAN + Operations.Render(v.value), st1.line), st1)
      else Exec(c, st1, if v.value.b then ifBlock else elseBlock, fuel - 1)
  {
  }

  lemma ExecBlockStep<W>(c: Config<W>, st: State<W>, body: seq<Statement>, fuel: nat)
    requires fuel > 0
    ensures Exec(c, st, Statement.Block(body), fuel) == ExecAll(c, st, body, 0, fuel - 1)
  {
  }

  lemma ExecFunctionStep<W>(c: Config<W>, st: State<W>, id: string, params: seq<string>, block: Statement, fuel: nat)
    requires fuel > 0
    ensures Exec(c, st, Statement.Function(id, params, block), fuel) == (Ok(()), InsertTop(st, id, Object.Function(params, block)))
  {
  }

  lemma ExecFinderStep<W>(c: Config<W>, st: State<W>, id: string, equations: seq<(Expression, Expression)>, fuel: nat)
    requires fuel > 0
    ensures Exec(c, st, Statement.Finder(id, equations), fuel) == (Ok(()), InsertTop(st, id, Object.Finder(equations)))
  {
  }

  lemma ExecReturnStep<W>(c: Config<W>, st: State<W>, e: Expression, fuel: nat, v: Result<Object>, st1: State<W>)
    requires fuel > 0 && Eval(c, st, e, fuel - 1) == (v, st1)
    ensures Exec(c, st, Statement.Return(e), fuel) ==
      if !v.Ok? then (v.PropagateFailure(), st1) else (Ok(()), InsertTop(st1, RETURN_VARIABLE, v.value))
  {
  }

  lemma ExecImportStep<W>(c: Config<W>, st: State<W>, e: Expression, fuel: nat, v: Result<Object>, st1: State<W>)
    requires fuel > 0 && Eval(c, st, e, fuel - 1) == (v, st1)
    ensures Exec(c, st, Statement.Import(e), fuel) ==
      if !v.Ok? then (v.PropagateFailure(), st1)
      else if !v.value.String? then
        (Fail(FILENAME_NOT_STRING + Operations.Render(v.value), st1.line), st1)
      else
        var (g, w) := RunScript(c, v.value.s, st1.globals, st1.world, fuel - 1);
        if g.Ok? then (Ok(()), st1.(globals := g.value, world := w)) else (g.PropagateFailure(), st1.(world := w))
  {
  }

  lemma ExecExpressionStep<W>(c: Config<W>, st: State<W>, e: Expression, fuel: nat, v: Result<Object>, st1: State<W>)
    requires fuel > 0 && Eval(c, st, e, fuel - 1) == (v, st1)
    ensures Exec(c, st, Statement.Expression(e), fuel) ==
      if !v.Ok? then (v.PropagateFailure(), st1)
      else if st1.inRepl then Output(c, st1, v.value)
      else (Ok(()), st1)
  {
  }

  lemma ExecProcessStep<W>(c: Config<W>, st: State<W>, readfile: Expression, writefile: Expression, block: Statement, fuel: nat)
    requires fuel > 0
    ensures Exec(c, st, Statement.Process(readfile, writefile, block), fuel) == ExecProcess(c, st, readfile, writefile, block, fuel - 1)
  {
  }

  lemma ExecLineStep<W>(c: Config<W>, st: State<W>, fuel: nat)
    requires fuel > 0
    ensures Exec(c, st, Statement.Line, fuel) ==
      if st.line + 1 >= USIZE_LIMIT then (Panic(ADD_OVERFLOW), st)
      else (Ok(()), st.(line := st.line + 1))
  {
  }

  lemma ExecEOFStep<W>(c: Config<W>, st: State<W>, fuel: nat)
    requires fuel > 0
    ensures Exec(c, st, Statement.EOF, fuel) == (Ok(()), st)
  {
  }

  lemma ExecAllStep<W>(c: Config<W>, st: State<W>, body: seq<Statement>, i: nat, fuel: nat, r: Result<()>, st1: State<W>)
    requires i < |body|
    requires fuel > 0 && Exec(c, st, body[i], fuel - 1) == (r, st1)
    ensures ExecAll(c, st, body, i, fuel) ==
      if !r.Ok? then (r, st1) else ExecAll(c, st1, body, i + 1, fuel)
  {
  }

  lemma ExecArrayAssignUnindexed<W>(c: Config<W>, st: State<W>, name: string, idx: Expression, e: Expression, fuel: nat,
                                    i: Result<Object>, st1: State<W>)
    requires fuel > 0 && GetVariable(st, name).Array? && Eval(c, st, idx, fuel - 1) == (i, st1) && !i.Ok?
    ensures ExecArrayAssign(c, st, name, idx, e, fuel) == (i.PropagateFailure(), st1)
  {
  }

  lemma ExecArrayAssignEvaluated<W>(c: Config<W>, st: State<W>, name: string, idx: Expression, e: Expression, fuel: nat,
                                    i: Result<Object>, st1: State<W>, v: Result<Object>, st2: State<W>)
    requires fuel > 0 && GetVariable(st, name).Array? && Eval(c, st, idx, fuel - 1) == (i, st1) && i.Ok?
    requires Eval(c, st1, e, fuel - 1) == (v, st2)
    ensures ExecArrayAssign(c, st, name, idx, e, fuel) ==
      if !v.Ok? then (v.PropagateFailure(), st2)
      else if !i.value.Int? then (Ok(()), st2)
      else (Ok(()), WriteBack(st2, name, Object.Array(Assigned(GetVariable(st, name).items, ToUsize(i.value.i), v.value))))
  {
  }

  /** A round of `run_while` whose condition does not let the body run. */
  lemma WhileExit<W>(c: Config<W>, st: State<W>, cond: Expression, block: Statement, current: nat, fuel: nat,
                     v: Result<Object>, st1: State<W>)
    requires fuel > 0 && Eval(c, st, cond, fuel - 1) == (v, st1)
    requires !(v.Ok? && v.value.Boolean? && v.value.b && st1.loops == current)
    ensures WhileFrom(c, st, cond, block, current, fuel) ==
      if !v.Ok? then (v.PropagateFailure(), st1)
      else if !v.value.Boolean? then
        (Fail(WHILE_NOT_BOOLEAN + Operations.Render(v.value), st1.line), st1)
      else if st1.loops != current then (Ok(()), st1)
      else Decremented(st1)
  {
  }

  /** A round of `run_while` that runs the body. */
  lemma WhileRound<W>(c: Config<W>, st: State<W>, cond: Expression, block: Statement, current: nat, fuel: nat,
                      v: Result<Object>, st1: State<W>, r: Result<()>, st2: State<W>)
    requires fuel > 0 && Eval(c, st, cond, fuel - 1) == (v, st1)
    requires v.Ok? && v.value.Boolean? && v.value.b && st1.loops == current
    requires Exec(c, st1, block, fuel - 1) == (r, st2)
    ensures WhileFrom(c, st, cond, block, current, fuel) ==
      if !r.Ok? then (r, st2) else WhileFrom(c, st2, cond, block, current, fuel - 1)
  {
  }

  lemma LoopStep<W>(c: Config<W>, st: State<W>, block: Statement, current: nat, fuel: nat)
    requires fuel > 0
    ensures LoopFrom(c, st, block, current, fuel) ==
      if st.loops != current then (Ok(()), st)
      else
        var (r, st1) := Exec(c, st, block, fuel - 1);
        if !r.Ok? then (r, st1) else LoopFrom(c, st1, block, current, fuel - 1)
  {
  }

  // ---------------------------------------------------------------------------
  // `run_process`.

  lemma ExecProcessRead<W>(c: Config<W>, st: State<W>, readfile: Expression, writefile: Expression, block: Statement, fuel: nat,
                            rf: Result<Object>, st1: State<W>)
    requires fuel > 0 && Eval(c, Push(st), readfile, fuel - 1) == (rf, st1)
    ensures ExecProcess(c, st, readfile, writefile, block, fuel) ==
      if !rf.Ok? then (rf.PropagateFailure(), st1) else ProcessFile(c, st1, rf.value, writefile, block, fuel - 1)
  {
  }

  /** The rest of `run_process` once a CSV file named by `rf`, if any, is opened into the state `st1`. */
  lemma ProcessFileOpened<W>(c: Config<W>, st: State<W>, rf: Object, writefile: Expression, block: Statement, fuel: nat, st1: State<W>)
    requires if rf.String? then OpenDatatable(c, st, rf.s).0.Ok? && OpenDatatable(c, st, rf.s).1 == st1 else st1 == st
    ensures ProcessFile(c, st, rf, writefile, block, fuel) ==
      var (ran, st2) := Exec(c, st1, block, fuel);
      if !ran.Ok? then (ran, st2) else WriteProcessed(c, st2, writefile, fuel)
  {
  }

  /** `run_process` stops at a CSV file that cannot be opened. */
  lemma ProcessFileUnopened<W>(c: Config<W>, st: State<W>, rf: Object, writefile: Expression, block: Statement, fuel: nat)
    requires rf.String? && !OpenDatatable(c, st, rf.s).0.Ok?
    ensures ProcessFile(c, st, rf, writefile, block, fuel) == OpenDatatable(c, st, rf.s)
  {
  }

  /** The end of `run_process` once the output file name is evaluated. */
  lemma WriteProcessedOk<W>(c: Config<W>, st: State<W>, writefile: Expression, fuel: nat, wf: Object, st1: State<W>)
    requires |st.scopes| > 0 && Eval(c, st, writefile, fuel) == (Ok(wf), st1)
    ensures WriteProcessed(c, st, writefile, fuel) ==
      var top := st.scopes[|st.scopes| - 1];
      var names := ColumnNames(top, c.order(top));
      WriteDatatable(c, st1, wf, names, ValuesOf(top, names))
  {
  }
}
