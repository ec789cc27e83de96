/**
 * The `Interpreter` struct and its methods, which change its fields in place as
 * the source does: the scope stack, the globals, the `loops` and `line`
 * counters, and the state of the host the callbacks act on. Every method is
 * proved to leave the struct, and to return, what the corresponding function of
 * `Semantics` says. `interpret`, `run` and `run_script` are the module-level
 * methods at the end.
 */
module Interpreting {
  import opened Outcomes
  import opened Common
  import Operations
  import StandardLib
  import Csv
  import PlaceholderCas
  import Lexing
  import Parsing
  import Semantics
  import SemanticsFacts
  import SemanticsSteps

  type Scope = Semantics.Scope

  class Interpreter<W> {
    const cfg: Semantics.Config<W>
    var globals: Scope
    var scopes: seq<Scope>
    var loops: nat
    var line: nat
    const inRepl: bool
    var world: W

    /** The fields as a value of the semantics. */
    function Current(): Semantics.State<W>
      reads this
    {
      Semantics.State(globals, scopes, loops, line, inRepl, world)
    }

    /** The struct `interpret` builds: no scopes, no loops, line 1. */
    constructor (cfg: Semantics.Config<W>, globals: Scope, inRepl: bool, world: W)
      ensures this.cfg == cfg && Current() == Semantics.Initial(globals, inRepl, world)
    {
      this.cfg := cfg;
      this.globals := globals;
      this.scopes := [];
      this.loops := 0;
      this.line := 1;
      this.inRepl := inRepl;
      this.world := world;
    }

    // -------------------------------------------------------------------------
    // Variables.

    /** `get_variable`: a scan of the scopes from the top down, then the globals. */
    method GetVariable(identifier: string) returns (o: Object)
      ensures o == Semantics.GetVariable(Current(), identifier)
    {
      var index := |scopes| - 1;
      assert scopes[..index + 1] == scopes;
      while index >= 0
        invariant -1 <= index < |scopes|
        invariant Semantics.Find(scopes, globals, identifier) == Semantics.Find(scopes[..index + 1], globals, identifier)
        decreases index + 1
      {
        assert scopes[..index + 1][..index] == scopes[..index];
        if identifier in scopes[index] {
          return scopes[index][identifier];
        }
        index := index - 1;
      }
      o := if identifier in globals then globals[identifier] else Object.Null;
    }

    /** `insert_top_scope`. */
    method InsertTopScope(identifier: string, value: Object)
      modifies this
      ensures Current() == Semantics.InsertTop(old(Current()), identifier, value)
    {
      if |scopes| > 0 {
        var index := |scopes| - 1;
        scopes := scopes[index := scopes[index][identifier := value]];
      } else {
        globals := globals[identifier := value];
      }
    }

    /** The loop of `insert_top_scope` calls that binds parameters, or CSV columns, by position. */
    method BindAll(names: seq<string>, values: seq<Object>) returns (r: Result<()>)
      modifies this
      ensures (r, Current()) == Semantics.BindAll(old(Current()), names, values, 0)
    {
      for index := 0 to |names|
        invariant Semantics.BindAll(Current(), names, values, index) == Semantics.BindAll(old(Current()), names, values, 0)
      {
        if index >= |values| {
          return Panic(OUT_OF_BOUNDS);
        }
        InsertTopScope(names[index], values[index]);
      }
      r := Ok(());
    }

    /** The write-back of `run_array_assign`: a scan from the top scope down, the globals when none holds the name. */
    method WriteBack(name: string, value: Object)
      modifies this
      ensures Current() == Semantics.WriteBack(old(Current()), name, value)
    {
      var got := false;
      var s := scopes;
      var i := |s|;
      while i > 0
        modifies {}
        invariant 0 <= i <= |s| == |scopes|
        invariant !got ==> s == scopes && forall k :: i <= k < |scopes| ==> name !in scopes[k]
        invariant got ==> (Semantics.Holder(scopes, name).Some? &&
          s == scopes[Semantics.Holder(scopes, name).value := scopes[Semantics.Holder(scopes, name).value][name := value]])
      {
        i := i - 1;
        if !got && name in s[i] {
          got := true;
          SemanticsFacts.HolderIs(scopes, name, i);
          s := s[i := s[i][name := value]];
        }
      }
      if got {
        scopes := s;
      } else {
        SemanticsFacts.HolderNone(scopes, name);
        globals := globals[name := value];
      }
    }

    /** `self.loops -= 1`. */
    method DecrementLoops() returns (r: Result<()>)
      modifies this
      ensures (r, Current()) == Semantics.Decremented(old(Current()))
    {
      if loops == 0 {
        return Panic(Semantics.SUB_OVERFLOW);
      }
      loops := loops - 1;
      r := Ok(());
    }

    /** Prints `v` through `output_fn`. */
    method Output(v: Object) returns (r: Result<()>)
      modifies this
      ensures (r, Current()) == Semantics.Output(cfg, old(Current()), v)
    {
      var text := cfg.lib.userPrint(v, line);
      if !text.Ok? {
        return text.PropagateFailure();
      }
      world := cfg.cb.output(world, text.value);
      r := Ok(());
    }

    // -------------------------------------------------------------------------
    // Statements. `RunStatement` and `EvalExpression` dispatch on the variant;
    // the helper of each variant receives the same fuel, and the methods of
    // the other functions of `Semantics` receive what those functions pass on.

    /** `run_statement`. */
    method RunStatement(s: Statement, fuel: nat) returns (r: Result<()>)
      modifies this
      ensures (r, Current()) == Semantics.Exec(cfg, old(Current()), s, fuel)
      decreases fuel, 2
    {
      if fuel == 0 {
        return Stop(OutOfFuel);
      }
      match s {
        case Definition(name, e) => r := RunDefinition(name, e, fuel);
        case ArrayAssign(name, idx, e) =>
          SemanticsSteps.ExecArrayAssignStep(cfg, Current(), name, idx, e, fuel);
          r := RunArrayAssign(name, idx, e, fuel - 1);
        case While(cond, block) => r := RunWhile(cond, block, fuel);
        case Loop(block) => r := RunLoop(block, fuel);
        case If(cond, block) => r := RunIf(cond, block, fuel);
        case IfElse(cond, ifBlock, elseBlock) => r := RunIfElse(cond, ifBlock, elseBlock, fuel);
        case Block(body) =>
          SemanticsSteps.ExecBlockStep(cfg, Current(), body, fuel);
          r := RunBlock(body, fuel - 1);
        case Return(e) => r := RunReturn(e, fuel);
        case Import(e) => r := RunImport(e, fuel);
        case Process(readfile, writefile, block) =>
          SemanticsSteps.ExecProcessStep(cfg, Current(), readfile, writefile, block, fuel);
          r := RunProcess(readfile, writefile, block, fuel - 1);
        case _ => r := RunInline(s, fuel);
      }
    }

    /** The arms of `run_statement` that it handles itself rather than through a helper. */
    method RunInline(s: Statement, fuel: nat) returns (r: Result<()>)
      requires fuel > 0
      requires s.Print? || s.Break? || s.Function? || s.Finder? || s.Expression? || s.Line? || s.EOF?
      modifies this
      ensures (r, Current()) == Semantics.Exec(cfg, old(Current()), s, fuel)
      decreases fuel, 1
    {
      match s {
        case Print(e) =>
          ghost var st0 := Current();
          var v := EvalExpression(e, fuel - 1);
          SemanticsSteps.ExecPrintStep(cfg, st0, e, fuel, v, Current());
          if !v.Ok? {
            return v.PropagateFailure();
          }
          r := Output(v.value);
        case Break =>
          SemanticsSteps.ExecBreakStep(cfg, Current(), fuel);
          r := DecrementLoops();
        case Function(id, params, block) =>
          SemanticsSteps.ExecFunctionStep(cfg, Current(), id, params, block, fuel);
          InsertTopScope(id, Object.Function(params, block));
          r := Ok(());
        case Finder(id, equations) =>
          SemanticsSteps.ExecFinderStep(cfg, Current(), id, equations, fuel);
          InsertTopScope(id, Object.Finder(equations));
          r := Ok(());
        case Expression(e) =>
          ghost var st0 := Current();
          var v := EvalExpression(e, fuel - 1);
          SemanticsSteps.ExecExpressionStep(cfg, st0, e, fuel, v, Current());
          if !v.Ok? {
            return v.PropagateFailure();
          }
          if inRepl {
            r := Output(v.value);
          } else {
            r := Ok(());
          }
        case Line =>
          SemanticsSteps.ExecLineStep(cfg, Current(), fuel);
          if line + 1 >= USIZE_LIMIT {
            return Panic(Semantics.ADD_OVERFLOW);
          }
          line := line + 1;
          r := Ok(());
        case EOF =>
          SemanticsSteps.ExecEOFStep(cfg, Current(), fuel);
          r := Ok(());
      }
    }

    /** `run_definition`. */
    method RunDefinition(name: string, value: Expression, fuel: nat) returns (r: Result<()>)
      requires fuel > 0
      modifies this
      ensures (r, Current()) == Semantics.Exec(cfg, old(Current()), Statement.Definition(name, value), fuel)
      decreases fuel, 1
    {
      ghost var st0 := Current();
      var val := EvalExpression(value, fuel - 1);
      SemanticsSteps.ExecDefinitionStep(cfg, st0, name, value, fuel, val, Current());
      if !val.Ok? {
        return val.PropagateFailure();
      }
      InsertTopScope(name, val.value);
      r := Ok(());
    }

    /** `run_return`: the value is stored as `return` in the top scope. */
    method RunReturn(expr: Expression, fuel: nat) returns (r: Result<()>)
      requires fuel > 0
      modifies this
      ensures (r, Current()) == Semantics.Exec(cfg, old(Current()), Statement.Return(expr), fuel)
      decreases fuel, 1
    {
      ghost var st0 := Current();
      var val := EvalExpression(expr, fuel - 1);
      SemanticsSteps.ExecReturnStep(cfg, st0, expr, fuel, val, Current());
      if !val.Ok? {
        return val.PropagateFailure();
      }
      InsertTopScope(Semantics.RETURN_VARIABLE, val.value);
      r := Ok(());
    }

    /** `run_array_assign`. */
    method RunArrayAssign(name: string, idx: Expression, value: Expression, fuel: nat) returns (r: Result<()>)
      modifies this
      ensures (r, Current()) == Semantics.ExecArrayAssign(cfg, old(Current()), name, idx, value, fuel)
      decreases fuel, 3
    {
      if fuel == 0 {
        return Stop(OutOfFuel);
      }
      var target := GetVariable(name);
      if !target.Array? {
        return Ok(());
      }
      r := AssignIndexed(name, target.items, idx, value, fuel);
    }

    /** The index and the value of `run_array_assign` evaluated for an Array variable holding `data`. */
    method AssignIndexed(name: string, data: seq<Object>, idx: Expression, value: Expression, fuel: nat) returns (r: Result<()>)
      requires fuel > 0 && Semantics.GetVariable(Current(), name) == Object.Array(data)
      modifies this
      ensures (r, Current()) == Semantics.ExecArrayAssign(cfg, old(Current()), name, idx, value, fuel)
      decreases fuel, 2
    {
      ghost var st0 := Current();
      var index := EvalExpression(idx, fuel - 1);
      if !index.Ok? {
        SemanticsSteps.ExecArrayAssignUnindexed(cfg, st0, name, idx, value, fuel, index, Current());
        return index.PropagateFailure();
      }
      ghost var st1 := Current();
      var val := EvalExpression(value, fuel - 1);
      SemanticsSteps.ExecArrayAssignEvaluated(cfg, st0, name, idx, value, fuel, index, st1, val, Current());
      if !val.Ok? {
        return val.PropagateFailure();
      }
      if index.value.Int? {
        AssignCell(name, data, ToUsize(index.value.i), val.value);
      }
      r := Ok(());
    }

    /** `data[x as usize] = val` after the padding, and the write-back of the array. */
    method AssignCell(name: string, data: seq<Object>, n: nat, v: Object)
      modifies this
      ensures Current() == Semantics.WriteBack(old(Current()), name, Object.Array(Semantics.Assigned(data, n, v)))
    {
      var padded := Pad(data, n);
      WriteBack(name, Object.Array(padded[n := v]));
    }

    /** `run_while`: `loops` is raised, and the rounds run until the condition fails or a `break` lowers it. */
    method RunWhile(cond: Expression, block: Statement, fuel: nat) returns (r: Result<()>)
      requires fuel > 0
      modifies this
      ensures (r, Current()) == Semantics.Exec(cfg, old(Current()), Statement.While(cond, block), fuel)
      decreases fuel, 1
    {
      SemanticsSteps.ExecWhileStep(cfg, Current(), cond, block, fuel);
      if loops + 1 >= USIZE_LIMIT {
        return Panic(Semantics.ADD_OVERFLOW);
      }
      loops := loops + 1;
      var current := loops;
      var f: nat := fuel - 1;
      ghost var spec := Semantics.WhileFrom(cfg, Current(), cond, block, current, f);
      while true
        invariant f < fuel
        invariant Semantics.WhileFrom(cfg, Current(), cond, block, current, f) == spec
        decreases f
      {
        if f == 0 {
          return Stop(OutOfFuel);
        }
        var done;
        done, r := WhileRound(cond, block, current, f);
        if done {
          return;
        }
        f := f - 1;
      }
    }

    /**
     * One round of `run_while`: the condition is evaluated, and the body runs
     * when it holds for the innermost loop (done is false when the rounds go on).
     */
    method WhileRound(cond: Expression, block: Statement, current: nat, f: nat) returns (done: bool, r: Result<()>)
      requires f > 0
      modifies this
      ensures done ==> (r, Current()) == Semantics.WhileFrom(cfg, old(Current()), cond, block, current, f)
      ensures !done ==>
        Semantics.WhileFrom(cfg, old(Current()), cond, block, current, f) == Semantics.WhileFrom(cfg, Current(), cond, block, current, f - 1)
      decreases f, 2
    {
      ghost var st0 := Current();
      var v := EvalExpression(cond, f - 1);
      ghost var st1 := Current();
      if v.Ok? && v.value.Boolean? && v.value.b && loops == current {
        var ran := RunStatement(block, f - 1);
        SemanticsSteps.WhileRound(cfg, st0, cond, block, current, f, v, st1, ran, Current());
        return !ran.Ok?, ran;
      }
      SemanticsSteps.WhileExit(cfg, st0, cond, block, current, f, v, st1);
      r := WhileLeave(v, current);
      return true, r;
    }

    /** The end of `run_while` once the condition `v` does not let the body run. */
    method WhileLeave(v: Result<Object>, current: nat) returns (r: Result<()>)
      modifies this
      ensures (r, Current()) ==
        if !v.Ok? then (v.PropagateFailure(), old(Current()))
        else if !v.value.Boolean? then (Fail(Semantics.WHILE_NOT_BOOLEAN + Operations.Render(v.value), old(line)), old(Current()))
        else if old(loops) != current then (Ok(()), old(Current()))
        else Semantics.Decremented(old(Current()))
    {
      if !v.Ok? {
        return v.PropagateFailure();
      }
      if !v.value.Boolean? {
        return Fail(Semantics.WHILE_NOT_BOOLEAN + Operations.Render(v.value), line);
      }
      if loops != current {
        return Ok(());
      }
      r := DecrementLoops();
    }

    /** `run_loop`: `loops` is raised, and the body repeats until a `break` changes it. */
    method RunLoop(block: Statement, fuel: nat) returns (r: Result<()>)
      requires fuel > 0
      modifies this
      ensures (r, Current()) == Semantics.Exec(cfg, old(Current()), Statement.Loop(block), fuel)
      decreases fuel, 1
    {
      SemanticsSteps.ExecLoopStep(cfg, Current(), block, fuel);
      if loops + 1 >= USIZE_LIMIT {
        return Panic(Semantics.ADD_OVERFLOW);
      }
      loops := loops + 1;
      var current := loops;
      var f: nat := fuel - 1;
      ghost var spec := Semantics.LoopFrom(cfg, Current(), block, current, f);
      while true
        invariant f < fuel
        invariant Semantics.LoopFrom(cfg, Current(), block, current, f) == spec
        decreases f
      {
        if f == 0 {
          return Stop(OutOfFuel);
        }
        SemanticsSteps.LoopStep(cfg, Current(), block, current, f);
        if loops != current {
          return Ok(());
        }
        var ran := RunStatement(block, f - 1);
        if !ran.Ok? {
          return ran;
        }
        f := f - 1;
      }
    }

    /** `run_if`. */
    method RunIf(condition: Expression, block: Statement, fuel: nat) returns (r: Result<()>)
      requires fuel > 0
      modifies this
      ensures (r, Current()) == Semantics.Exec(cfg, old(Current()), Statement.If(condition, block), fuel)
      decreases fuel, 1
    {
      ghost var st0 := Current();
      var v := EvalExpression(condition, fuel - 1);
      SemanticsSteps.ExecIfStep(cfg, st0, condition, block, fuel, v, Current());
      if !v.Ok? {
        return v.PropagateFailure();
      }
      if !v.value.Boolean? {
        return Fail(Semantics.IF_NOT_BOOLEAN + Operations.Render(v.value), line);
      }
      if v.value.b {
        r := RunStatement(block, fuel - 1);
      } else {
        r := Ok(());
      }
    }

    /** `run_if_else`: exactly one of the branches runs. */
    method RunIfElse(condition: Expression, ifBlock: Statement, elseBlock: Statement, fuel: nat) returns (r: Result<()>)
      requires fuel > 0
      modifies this
      ensures (r, Current()) == Semantics.Exec(cfg, old(Current()), Statement.IfElse(condition, ifBlock, elseBlock), fuel)
      decreases fuel, 1
    {
      ghost var st0 := Current();
      var v := EvalExpression(condition, fuel - 1);
      SemanticsSteps.ExecIfElseStep(cfg, st0, condition, ifBlock, elseBlock, fuel, v, Current());
      if !v.Ok? {
        return v.PropagateFailure();
      }
      if !v.value.Boolean? {
        return Fail(Semantics.IF_ELSE_NOT_BOOLEAN + Operations.Render(v.value), line);
      }
      r := RunStatement(if v.value.b then ifBlock else elseBlock, fuel - 1);
    }

    /** `run_block`: the statements in order, up to the first failure. */
    method RunBlock(body: seq<Statement>, fuel: nat) returns (r: Result<()>)
      modifies this
      ensures (r, Current()) == Semantics.ExecAll(cfg, old(Current()), body, 0, fuel)
      decreases fuel, 3
    {
      if fuel == 0 {
        return Stop(OutOfFuel);
      }
      for i := 0 to |body|
        invariant Semantics.ExecAll(cfg, Current(), body, i, fuel) == Semantics.ExecAll(cfg, old(Current()), body, 0, fuel)
      {
        ghost var st0 := Current();
        var ran := RunStatement(body[i], fuel - 1);
        SemanticsSteps.ExecAllStep(cfg, st0, body, i, fuel, ran, Current());
        if !ran.Ok? {
          return ran;
        }
      }
      r := Ok(());
    }

    /** `run_import`: the globals become those `run_script` returns. */
    method RunImport(expr: Expression, fuel: nat) returns (r: Result<()>)
      requires fuel > 0
      modifies this
      ensures (r, Current()) == Semantics.Exec(cfg, old(Current()), Statement.Import(expr), fuel)
      decreases fuel, 1
    {
      ghost var st0 := Current();
      var filename := EvalExpression(expr, fuel - 1);
      SemanticsSteps.ExecImportStep(cfg, st0, expr, fuel, filename, Current());
      if !filename.Ok? {
        return filename.PropagateFailure();
      }
      if !filename.value.String? {
        return Fail(Semantics.FILENAME_NOT_STRING + Operations.Render(filename.value), line);
      }
      var g, w := RunScript(cfg, filename.value.s, globals, world, fuel - 1);
      world := w;
      if g.Ok? {
        globals := g.value;
        r := Ok(());
      } else {
        r := g.PropagateFailure();
      }
    }

    /** `run_process`: a new scope, the input file name evaluated in it, and the rest as `ProcessFile` does it. */
    method RunProcess(readfile: Expression, writefile: Expression, block: Statement, fuel: nat) returns (r: Result<()>)
      modifies this
      ensures (r, Current()) == Semantics.ExecProcess(cfg, old(Current()), readfile, writefile, block, fuel)
      decreases fuel, 3
    {
      if fuel == 0 {
        return Stop(OutOfFuel);
      }
      ghost var st0 := Current();
      scopes := scopes + [map[]];
      var file := EvalExpression(readfile, fuel - 1);
      SemanticsSteps.ExecProcessRead(cfg, st0, readfile, writefile, block, fuel, file, Current());
      if !file.Ok? {
        return file.PropagateFailure();
      }
      r := ProcessFile(file.value, writefile, block, fuel - 1);
    }

    /**
     * The CSV file opened into the new scope when `rf` is a string, the block,
     * and the Column variables of the top scope written out through `write`.
     */
    method ProcessFile(rf: Object, writefile: Expression, block: Statement, fuel: nat) returns (r: Result<()>)
      modifies this
      ensures (r, Current()) == Semantics.ProcessFile(cfg, old(Current()), rf, writefile, block, fuel)
      decreases fuel, 4
    {
      ghost var st0 := Current();
      if rf.String? {
        var loaded := OpenDatatable(rf.s);
        if !loaded.Ok? {
          SemanticsSteps.ProcessFileUnopened(cfg, st0, rf, writefile, block, fuel);
          return loaded;
        }
      }
      SemanticsSteps.ProcessFileOpened(cfg, st0, rf, writefile, block, fuel, Current());
      var ran := RunStatement(block, fuel);
      if !ran.Ok? {
        return ran;
      }
      r := WriteProcessed(writefile, fuel);
    }

    /** The end of `run_process`: the Column variables of the top scope written out through `write`. */
    method WriteProcessed(writefile: Expression, fuel: nat) returns (r: Result<()>)
      modifies this
      ensures (r, Current()) == Semantics.WriteProcessed(cfg, old(Current()), writefile, fuel)
      decreases fuel, 3
    {
      if |scopes| == 0 {
        return Panic(Semantics.SUB_OVERFLOW);
      }
      var top := scopes[|scopes| - 1];
      var columns, values := ColumnsOf(top, cfg.order(top));
      ghost var st0 := Current();
      var filename := EvalExpression(writefile, fuel);
      if !filename.Ok? {
        return filename.PropagateFailure();
      }
      SemanticsSteps.WriteProcessedOk(cfg, st0, writefile, fuel, filename.value, Current());
      r := WriteDatatable(filename.value, columns, values);
    }

    /** The call of `write` that ends `run_process`, on the evaluated file name and the collected columns. */
    method WriteDatatable(filename: Object, columns: seq<string>, values: seq<Object>) returns (r: Result<()>)
      modifies this
      ensures (r, Current()) == Semantics.WriteDatatable(cfg, old(Current()), filename, columns, values)
    {
      var written := StandardLib.RunFnStd(cfg.lib, cfg.cb, world, line, Semantics.WRITE_BUILTIN, [filename, DataTable(columns, values)]);
      if !written.Ok? {
        return written.PropagateFailure();
      }
      world := written.value.1;
      r := Ok(());
    }

    /** `open_datatable`. */
    method OpenDatatable(readfile: string) returns (r: Result<()>)
      modifies this
      ensures (r, Current()) == Semantics.OpenDatatable(cfg, old(Current()), readfile)
    {
      var datatable := Csv.CsvToDatatable(cfg.cb, world, readfile, line);
      if !datatable.Ok? {
        return datatable.PropagateFailure();
      }
      if !datatable.value.DataTable? {
        return Fail(Semantics.NOT_DATATABLE + Operations.Render(datatable.value), line);
      }
      InsertTopScope(Semantics.DATATABLE_VARIABLE, datatable.value);
      r := BindAll(datatable.value.names, datatable.value.data);
    }

    // -------------------------------------------------------------------------
    // Expressions.

    /** `eval_expression`. */
    method EvalExpression(expression: Expression, fuel: nat) returns (r: Result<Object>)
      modifies this
      ensures (r, Current()) == Semantics.Eval(cfg, old(Current()), expression, fuel)
      decreases fuel, 2
    {
      if fuel == 0 {
        return Stop(OutOfFuel);
      }
      match expression {
        case Binary(operand1, operand2, operator) => r := EvalBinary(operand1, operand2, operator, fuel);
        case Unary(operand, operator) => r := EvalUnary(operand, operator, fuel);
        case Literal(obj) =>
          SemanticsSteps.EvalLiteralStep(cfg, Current(), obj, fuel);
          var v := EvalLiteral(obj);
          r := Ok(v);
        case FunctionCall(identifier, args) =>
          SemanticsSteps.EvalCallStep(cfg, Current(), identifier, args, fuel);
          r := EvalFunctionCall(identifier, args, fuel - 1);
        case FinderCall(identifier, given, toFind) =>
          SemanticsSteps.EvalFinderStep(cfg, Current(), identifier, given, toFind, fuel);
          r := EvalFinderCall(identifier, given, toFind, fuel - 1);
        case Array(exprs) => r := EvalArrayLiteral(exprs, fuel);
        case ArrayIndex(identifier, index) => r := EvalArrayIndex(identifier, index, fuel);
        case _ => r := Ok(Object.Null);
      }
    }

    /** `eval_binary`. */
    method EvalBinary(operand1: Expression, operand2: Expression, operator: TokenType, fuel: nat) returns (r: Result<Object>)
      requires fuel > 0
      modifies this
      ensures (r, Current()) == Semantics.Eval(cfg, old(Current()), Expression.Binary(operand1, operand2, operator), fuel)
      decreases fuel, 1
    {
      ghost var st0 := Current();
      var a := EvalExpression(operand1, fuel - 1);
      SemanticsSteps.EvalBinaryStep(cfg, st0, operand1, operand2, operator, fuel, a, Current());
      if !a.Ok? {
        return a;
      }
      var b := EvalExpression(operand2, fuel - 1);
      if !b.Ok? {
        return b;
      }
      r := Semantics.BinaryOp(operator, a.value, b.value, line, cfg.lib.math);
    }

    /** `eval_unary`. */
    method EvalUnary(operand: Expression, operator: TokenType, fuel: nat) returns (r: Result<Object>)
      requires fuel > 0
      modifies this
      ensures (r, Current()) == Semantics.Eval(cfg, old(Current()), Expression.Unary(operand, operator), fuel)
      decreases fuel, 1
    {
      ghost var st0 := Current();
      var a := EvalExpression(operand, fuel - 1);
      SemanticsSteps.EvalUnaryStep(cfg, st0, operand, operator, fuel, a, Current());
      if !a.Ok? {
        return a;
      }
      r := Semantics.UnaryOp(operator, a.value, line);
    }

    /** `eval_literal`. */
    method EvalLiteral(obj: Object) returns (o: Object)
      ensures o == Semantics.LiteralValue(Current(), obj)
    {
      if obj.Identifier? {
        o := GetVariable(obj.name);
      } else {
        o := obj;
      }
    }

    /** The expressions evaluated in order into a vector, up to the first failure. */
    method EvalEach(exprs: seq<Expression>, fuel: nat) returns (r: Result<seq<Object>>)
      modifies this
      ensures (r, Current()) == Semantics.EvalAll(cfg, old(Current()), exprs, [], fuel)
      decreases fuel, 3
    {
      if fuel == 0 {
        return Stop(OutOfFuel);
      }
      var vals: seq<Object> := [];
      while |vals| < |exprs|
        invariant |vals| <= |exprs|
        invariant Semantics.EvalAll(cfg, Current(), exprs, vals, fuel) == Semantics.EvalAll(cfg, old(Current()), exprs, [], fuel)
        decreases |exprs| - |vals|
      {
        ghost var st0 := Current();
        var v := EvalExpression(exprs[|vals|], fuel - 1);
        SemanticsSteps.EvalAllStep(cfg, st0, exprs, vals, fuel, v, Current());
        if !v.Ok? {
          return v.PropagateFailure();
        }
        vals := vals + [v.value];
      }
      r := Ok(vals);
    }

    /** `eval_array_literal`. */
    method EvalArrayLiteral(exprs: seq<Expression>, fuel: nat) returns (r: Result<Object>)
      requires fuel > 0
      modifies this
      ensures (r, Current()) == Semantics.Eval(cfg, old(Current()), Expression.Array(exprs), fuel)
      decreases fuel, 1
    {
      ghost var st0 := Current();
      var vals := EvalEach(exprs, fuel - 1);
      SemanticsSteps.EvalArrayStep(cfg, st0, exprs, fuel, vals, Current());
      r := if vals.Ok? then Ok(Object.Array(vals.value)) else vals.PropagateFailure();
    }

    /** `eval_arrayindex`. */
    method EvalArrayIndex(identifier: string, index: Expression, fuel: nat) returns (r: Result<Object>)
      requires fuel > 0
      modifies this
      ensures (r, Current()) == Semantics.Eval(cfg, old(Current()), Expression.ArrayIndex(identifier, index), fuel)
      decreases fuel, 1
    {
      ghost var st0 := Current();
      var i := EvalExpression(index, fuel - 1);
      SemanticsSteps.EvalIndexStep(cfg, st0, identifier, index, fuel, i, Current());
      if !i.Ok? {
        return i;
      }
      if !i.value.Int? {
        return Fail(Semantics.INDEX_NOT_INT, line);
      }
      if i.value.i < 0 {
        return Fail(Semantics.INDEX_NEGATIVE, line);
      }
      var target := GetVariable(identifier);
      if !target.Array? {
        return Fail(Semantics.INDEX_NOT_ARRAY, line);
      }
      if ToUsize(i.value.i) >= |target.items| {
        return Panic(OUT_OF_BOUNDS);
      }
      r := Ok(target.items[ToUsize(i.value.i)]);
    }

    /** `eval_function_call`. */
    method EvalFunctionCall(identifier: string, args: seq<Expression>, fuel: nat) returns (r: Result<Object>)
      modifies this
      ensures (r, Current()) == Semantics.EvalCall(cfg, old(Current()), identifier, args, fuel)
      decreases fuel, 3
    {
      if fuel <= 1 {
        return Stop(OutOfFuel);
      }
      SemanticsSteps.EvalCallUnfold(cfg, Current(), identifier, args, fuel);
      var hasUncertain := false;
      var hasColumn := false;
      ghost var scan := Semantics.ScanArgs(cfg, Current(), args, 0, false, false, fuel - 1);
      for index := 0 to |args|
        invariant Semantics.ScanArgs(cfg, Current(), args, index, hasUncertain, hasColumn, fuel - 1) == scan
      {
        ghost var st0 := Current();
        var arg := EvalExpression(args[index], fuel - 2);
        SemanticsSteps.ScanArgsStep(cfg, st0, args, index, hasUncertain, hasColumn, fuel - 1, arg, Current());
        if !arg.Ok? {
          return arg.PropagateFailure();
        }
        if arg.value.Uncertain? {
          if hasUncertain {
            return Fail(Semantics.TWO_UNCERTAINTIES, line);
          }
          hasUncertain := true;
        } else if arg.value.Column? {
          hasColumn := true;
        }
      }
      if hasColumn {
        return Ok(Object.Null);
      }
      if hasUncertain {
        return Stop(Unmodelled(Semantics.UNCERTAIN_CALL));
      }
      var evaled := EvalEach(args, fuel - 1);
      if !evaled.Ok? {
        return evaled.PropagateFailure();
      }
      r := CallFunction(identifier, evaled.value, fuel - 1);
    }

    /** `call_function`. */
    method CallFunction(identifier: string, args: seq<Object>, fuel: nat) returns (r: Result<Object>)
      modifies this
      ensures (r, Current()) == Semantics.CallFunction(cfg, old(Current()), identifier, args, fuel)
      decreases fuel, 3
    {
      if fuel == 0 {
        return Stop(OutOfFuel);
      }
      SemanticsSteps.CallFunctionUnfold(cfg, Current(), identifier, args, fuel);
      var fn := GetVariable(identifier);
      if fn.Function? {
        r := RunBody(fn.params, fn.block, args, fuel - 1);
        return;
      }
      var checkStd := StandardLib.RunFnStd(cfg.lib, cfg.cb, world, line, identifier, args);
      if !checkStd.Ok? {
        return checkStd.PropagateFailure();
      }
      world := checkStd.value.1;
      match checkStd.value.0 {
        case Some(found) =>
          if found.Function? {
            globals := globals[identifier := found];
            r := RunBody(found.params, found.block, args, fuel - 1);
          } else {
            r := Ok(found);
          }
        case None =>
          r := Fail(Semantics.NOT_FUNCTION_BEFORE + identifier + Semantics.NOT_FUNCTION_AFTER, line);
      }
    }

    /** The body shared by both branches of `call_function`: push, bind, run, read `return`, pop. */
    method RunBody(params: seq<string>, block: Statement, args: seq<Object>, fuel: nat) returns (r: Result<Object>)
      modifies this
      ensures (r, Current()) == Semantics.Invoke(cfg, old(Current()), params, block, args, fuel)
      decreases fuel, 3
    {
      if fuel == 0 {
        return Stop(OutOfFuel);
      }
      ghost var st0 := Current();
      scopes := scopes + [map[]];
      var bound := BindAll(params, args);
      SemanticsSteps.InvokeStep(cfg, st0, params, block, args, fuel, bound, Current());
      if !bound.Ok? {
        return bound.PropagateFailure();
      }
      var ran := RunStatement(block, fuel - 1);
      if !ran.Ok? {
        return ran.PropagateFailure();
      }
      var result := GetVariable(Semantics.RETURN_VARIABLE);
      if |scopes| > 0 {
        scopes := scopes[..|scopes| - 1];
      }
      r := Ok(result);
    }

    /** `eval_finder_call`. */
    method EvalFinderCall(identifier: string, given: seq<(string, Expression)>, toFind: string, fuel: nat)
      returns (r: Result<Object>)
      modifies this
      ensures (r, Current()) == Semantics.EvalFinder(cfg, old(Current()), identifier, given, toFind, fuel)
      decreases fuel, 3
    {
      if fuel == 0 {
        return Stop(OutOfFuel);
      }
      SemanticsSteps.EvalFinderUnfold(cfg, Current(), identifier, given, toFind, fuel);
      var finder: Object;
      var std := cfg.lib.hawkFinder(identifier);
      if std.Some? {
        finder := std.value;
      } else {
        finder := GetVariable(identifier);
      }
      if !finder.Finder? {
        return Fail(Semantics.NOT_FINDER + Operations.Render(finder), line);
      }
      scopes := scopes + [map[]];
      var viable := ChooseEquation(finder.equations, given, toFind);
      if !viable.Ok? {
        return viable.PropagateFailure();
      }
      if viable.value.None? {
        return Fail(Semantics.NO_VIABLE_EQUATION, line);
      }
      var bound := BindGiven(given, fuel - 1);
      if !bound.Ok? {
        return bound.PropagateFailure();
      }
      var solved := PlaceholderCas.SolveForAsWritten(viable.value.value.0, viable.value.value.1, toFind);
      if !solved.Ok? {
        return solved.PropagateFailure();
      }
      r := EvalExpression(solved.value, fuel - 1);
      if !r.Ok? {
        return;
      }
      if |scopes| > 0 {
        scopes := scopes[..|scopes| - 1];
      }
    }

    /** The loop of `eval_finder_call` that evaluates the given values into the top scope. */
    method BindGiven(given: seq<(string, Expression)>, fuel: nat) returns (r: Result<()>)
      modifies this
      ensures (r, Current()) == Semantics.BindGiven(cfg, old(Current()), given, 0, fuel)
      decreases fuel, 3
    {
      if fuel == 0 {
        return Stop(OutOfFuel);
      }
      for i := 0 to |given|
        invariant Semantics.BindGiven(cfg, Current(), given, i, fuel) == Semantics.BindGiven(cfg, old(Current()), given, 0, fuel)
      {
        ghost var st0 := Current();
        var value := EvalExpression(given[i].1, fuel - 1);
        SemanticsSteps.BindGivenStep(cfg, st0, given, i, fuel, value, Current());
        if !value.Ok? {
          return value.PropagateFailure();
        }
        InsertTopScope(given[i].0, value.value);
      }
      r := Ok(());
    }
  }

  // ---------------------------------------------------------------------------
  // Loops of the methods above that touch no field.

  /** The padding loop of `run_array_assign`: Nulls pushed until index `n` exists. */
  method Pad(data: seq<Object>, n: nat) returns (padded: seq<Object>)
    ensures n < |padded| && padded == (if n >= |data| then data + Semantics.Nulls(n - |data| + 1) else data)
  {
    padded := data;
    if n >= |data| {
      var k := 0;
      while k <= n - |data|
        invariant 0 <= k <= n - |data| + 1
        invariant padded == data + Semantics.Nulls(k)
      {
        padded := padded + [Object.Null];
        k := k + 1;
      }
    }
  }

  /** The scan of `run_process` over the top scope: its Column variables in the map's order, with their values. */
  method ColumnsOf(top: Scope, keys: seq<string>) returns (columns: seq<string>, values: seq<Object>)
    ensures columns == Semantics.ColumnNames(top, keys) && values == Semantics.ValuesOf(top, columns)
  {
    columns := [];
    values := [];
    for k := 0 to |keys|
      invariant columns == Semantics.ColumnNames(top, keys[..k]) && values == Semantics.ValuesOf(top, columns)
    {
      assert keys[..k + 1][..k] == keys[..k];
      if keys[k] in top && top[keys[k]].Column? {
        assert (columns + [keys[k]])[..|columns|] == columns;
        columns := columns + [keys[k]];
        values := values + [top[keys[k]]];
      }
    }
    assert keys[..|keys|] == keys;
  }

  /**
   * The equation loop of `eval_finder_call`: every equation's variables are
   * listed, and the last equation mentioning a given name or the target is kept.
   */
  method ChooseEquation(equations: seq<(Expression, Expression)>, given: seq<(string, Expression)>, toFind: string)
    returns (r: Result<Option<(Expression, Expression)>>)
    ensures r == Semantics.Viable(equations, given, toFind, 0, None)
  {
    var viable: Option<(Expression, Expression)> := None;
    for i := 0 to |equations|
      invariant Semantics.Viable(equations, given, toFind, i, viable) == Semantics.Viable(equations, given, toFind, 0, None)
    {
      var lhs := PlaceholderCas.GetVariables(equations[i].0);
      if !lhs.Ok? {
        return lhs.PropagateFailure();
      }
      var rhs := PlaceholderCas.GetVariables(equations[i].1);
      if !rhs.Ok? {
        return rhs.PropagateFailure();
      }
      var vars := lhs.value + rhs.value;
      var j := 0;
      while j < |vars|
        invariant 0 <= j <= |vars|
        invariant forall k :: 0 <= k < j ==> !(vars[k] == toFind || Semantics.IsGiven(given, vars[k]))
      {
        if vars[j] == toFind || Semantics.IsGiven(given, vars[j]) {
          break;
        }
        j := j + 1;
      }
      if j < |vars| {
        viable := Some(equations[i]);
      }
    }
    r := Ok(viable);
  }

  // ---------------------------------------------------------------------------
  // interpreter.rs and run.rs.

  /** `Interpreter::interpret`: a new struct runs the statements in order and returns its globals. */
  method Interpret<W>(cfg: Semantics.Config<W>, statements: seq<Statement>, globalState: Scope, inRepl: bool, world: W, fuel: nat)
    returns (r: Result<Scope>, w: W)
    ensures (r, w) == Semantics.Interpret(cfg, statements, globalState, inRepl, world, fuel)
    decreases fuel, 1
  {
    if fuel <= 1 {
      return Stop(OutOfFuel), world;
    }
    var interpreter := new Interpreter(cfg, globalState, inRepl, world);
    for index := 0 to |statements|
      invariant Semantics.ExecAll(cfg, interpreter.Current(), statements, index, fuel - 1)
        == Semantics.ExecAll(cfg, Semantics.Initial(globalState, inRepl, world), statements, 0, fuel - 1)
    {
      ghost var st0 := interpreter.Current();
      var ran := interpreter.RunStatement(statements[index], fuel - 2);
      SemanticsSteps.ExecAllStep(cfg, st0, statements, index, fuel - 1, ran, interpreter.Current());
      if !ran.Ok? {
        return ran.PropagateFailure(), interpreter.world;
      }
    }
    return Ok(interpreter.globals), interpreter.world;
  }

  /** `run`: lex, parse, interpret. */
  method RunSource<W>(cfg: Semantics.Config<W>, source: string, globalState: Scope, inRepl: bool, world: W, fuel: nat)
    returns (r: Result<Scope>, w: W)
    ensures (r, w) == Semantics.Run(cfg, source, globalState, inRepl, world, fuel)
    decreases fuel, 2
  {
    var tokens := Lexing.LexSource(Lexing.Graphemes(source));
    if !tokens.Ok? {
      return tokens.PropagateFailure(), world;
    }
    var statements := Parsing.Parser.Parse(tokens.value);
    if !statements.Ok? {
      return statements.PropagateFailure(), world;
    }
    r, w := Interpret(cfg, statements.value, globalState, inRepl, world, fuel);
  }

  /** `run_script`: a failure to read the file, or of the script, goes to `err` and gives an empty map. */
  method RunScript<W>(cfg: Semantics.Config<W>, filename: string, globalState: Scope, world: W, fuel: nat)
    returns (r: Result<Scope>, w: W)
    ensures (r, w) == Semantics.RunScript(cfg, filename, globalState, world, fuel)
    decreases fuel, 3
  {
    var source := cfg.cb.filein(world, filename);
    if source.None? {
      return Ok(map[]), cfg.cb.err(world, Semantics.UNREADABLE_FILE + filename, 0);
    }
    r, w := RunSource(cfg, source.value, globalState, false, world, fuel);
    if r.Err? {
      w := cfg.cb.err(w, r.error.message, r.error.line);
      r := Ok(map[]);
    }
  }
}
