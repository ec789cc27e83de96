/**
 * Properties of the interpreter's semantics: the variable lookup order, the
 * frames of `insert_top_scope` and of array assignment, the `loops`
 * bookkeeping of `while`, the statement order of blocks and programs, and the
 * dispatch of expressions and calls.
 */
module SemanticsFacts {
  import opened Outcomes
  import opened Common
  import opened Semantics
  import Operations
  import StandardLib
  import PlaceholderCas
  import Lexing
  import Parsing
  import SemanticsSteps

  // ---------------------------------------------------------------------------
  // `get_variable` and the write-back of array assignment.

  /** The scope that holds the name and is above every other that does is the one `Holder` finds. */
  lemma {:induction false} HolderIs(scopes: seq<Scope>, name: string, h: nat)
    requires h < |scopes| && name in scopes[h]
    requires forall k :: h < k < |scopes| ==> name !in scopes[k]
    ensures Holder(scopes, name) == Some(h)
    decreases |scopes|
  {
    if h < |scopes| - 1 {
      var below := scopes[..|scopes| - 1];
      assert name !in scopes[|scopes| - 1];
      forall k | h < k < |below|
        ensures name !in below[k]
      {
        assert below[k] == scopes[k];
      }
      HolderIs(below, name, h);
    }
  }

  /** No scope holds the name: `Holder` finds none. */
  lemma {:induction false} HolderNone(scopes: seq<Scope>, name: string)
    requires forall k :: 0 <= k < |scopes| ==> name !in scopes[k]
    ensures Holder(scopes, name) == None
    decreases |scopes|
  {
    if |scopes| > 0 {
      var below := scopes[..|scopes| - 1];
      assert name !in scopes[|scopes| - 1];
      forall k | 0 <= k < |below|
        ensures name !in below[k]
      {
        assert below[k] == scopes[k];
      }
      HolderNone(below, name);
    }
  }

  /** `Holder` finds the topmost scope holding the name, or none when no scope holds it. */
  lemma {:induction false} HolderTopmost(scopes: seq<Scope>, name: string)
    ensures Holder(scopes, name).Some? ==>
      var h := Holder(scopes, name).value;
      name in scopes[h] && forall k :: h < k < |scopes| ==> name !in scopes[k]
    ensures Holder(scopes, name).None? ==> forall k :: 0 <= k < |scopes| ==> name !in scopes[k]
    decreases |scopes|
  {
    if |scopes| > 0 && name !in scopes[|scopes| - 1] {
      var below := scopes[..|scopes| - 1];
      HolderTopmost(below, name);
      forall k | 0 <= k < |below|
        ensures below[k] == scopes[k]
      {
      }
    }
  }

  /** `get_variable` reads the scope `Holder` finds, else the globals, else Null. */
  lemma {:induction false} FindViaHolder(scopes: seq<Scope>, globals: Scope, name: string)
    ensures Semantics.Find(scopes, globals, name) ==
      if Holder(scopes, name).Some? then scopes[Holder(scopes, name).value][name]
      else if name in globals then globals[name] else Object.Null
    decreases |scopes|
  {
    if |scopes| > 0 && name !in scopes[|scopes| - 1] {
      var below := scopes[..|scopes| - 1];
      FindViaHolder(below, globals, name);
      if Holder(below, name).Some? {
        assert below[Holder(below, name).value] == scopes[Holder(below, name).value];
      }
    }
  }

  /** A name held by no scope and not by the globals reads as Null. */
  lemma GetVariableAbsent<W>(st: State<W>, name: string)
    requires forall k :: 0 <= k < |st.scopes| ==> name !in st.scopes[k]
    requires name !in st.globals
    ensures GetVariable(st, name) == Object.Null
  {
    HolderNone(st.scopes, name);
    FindViaHolder(st.scopes, st.globals, name);
  }

  /** `Find` over a stack whose scope `h` is changed only at `name`: other names read as before. */
  lemma {:induction false} FindOtherName(scopes: seq<Scope>, globals: Scope, h: nat, name: string, v: Object, other: string)
    requires h < |scopes| && other != name
    ensures Semantics.Find(scopes[h := scopes[h][name := v]], globals, other) == Semantics.Find(scopes, globals, other)
    decreases |scopes|
  {
    var changed := scopes[h := scopes[h][name := v]];
    if h < |scopes| - 1 && other !in scopes[|scopes| - 1] {
      assert changed[..|changed| - 1] == scopes[..|scopes| - 1][h := scopes[h][name := v]];
      FindOtherName(scopes[..|scopes| - 1], globals, h, name, v, other);
    } else if h == |scopes| - 1 && other !in scopes[h] {
      assert changed[..|changed| - 1] == scopes[..|scopes| - 1];
    }
  }

  /**
   * `insert_top_scope` writes the top scope when there is one and the globals
   * otherwise, and changes nothing else: the name then reads as the new value,
   * and every other name reads as before.
   */
  lemma InsertTopFrame<W>(st: State<W>, name: string, v: Object)
    ensures var st' := InsertTop(st, name, v);
      |st'.scopes| == |st.scopes| && st'.loops == st.loops && st'.line == st.line &&
      st'.inRepl == st.inRepl && st'.world == st.world &&
      (if |st.scopes| > 0 then
         st'.globals == st.globals && st'.scopes[|st.scopes| - 1] == st.scopes[|st.scopes| - 1][name := v] &&
         forall k :: 0 <= k < |st.scopes| - 1 ==> st'.scopes[k] == st.scopes[k]
       else st'.globals == st.globals[name := v] && st'.scopes == st.scopes)
    ensures GetVariable(InsertTop(st, name, v), name) == v
    ensures forall other :: other != name ==> GetVariable(InsertTop(st, name, v), other) == GetVariable(st, other)
  {
    if |st.scopes| > 0 {
      forall other | other != name
        ensures GetVariable(InsertTop(st, name, v), other) == GetVariable(st, other)
      {
        FindOtherName(st.scopes, st.globals, |st.scopes| - 1, name, v, other);
      }
    } else {
      forall other | other != name
        ensures GetVariable(InsertTop(st, name, v), other) == GetVariable(st, other)
      {
      }
    }
  }

  /**
   * The write-back of `run_array_assign` stores the array in the topmost scope
   * that holds the name, or in the globals when none does, and changes nothing
   * else: the name then reads as the new array, other names as before.
   */
  lemma WriteBackFrame<W>(st: State<W>, name: string, v: Object)
    ensures var st' := WriteBack(st, name, v);
      |st'.scopes| == |st.scopes| && st'.loops == st.loops && st'.line == st.line && st'.world == st.world &&
      (if exists k :: 0 <= k < |st.scopes| && name in st.scopes[k] then
         st'.globals == st.globals &&
         exists h :: 0 <= h < |st.scopes| && name in st.scopes[h] &&
           (forall k :: h < k < |st.scopes| ==> name !in st.scopes[k]) &&
           st'.scopes == st.scopes[h := st.scopes[h][name := v]]
       else st'.globals == st.globals[name := v] && st'.scopes == st.scopes)
    ensures GetVariable(WriteBack(st, name, v), name) == v
    ensures forall other :: other != name ==> GetVariable(WriteBack(st, name, v), other) == GetVariable(st, other)
  {
    HolderTopmost(st.scopes, name);
    var st' := WriteBack(st, name, v);
    match Holder(st.scopes, name)
    case Some(h) =>
      assert name in st'.scopes[h];
      HolderTopmost(st'.scopes, name);
      HolderIs(st'.scopes, name, h);
      FindViaHolder(st'.scopes, st'.globals, name);
      forall other | other != name
        ensures GetVariable(st', other) == GetVariable(st, other)
      {
        FindOtherName(st.scopes, st.globals, h, name, v, other);
      }
    case None =>
      FindViaHolder(st.scopes, st'.globals, name);
      forall other | other != name
        ensures GetVariable(st', other) == GetVariable(st, other)
      {
        FindViaHolder(st.scopes, st.globals, other);
        FindViaHolder(st.scopes, st'.globals, other);
      }
  }

  /** `data[n] = val` after the padding: the length is `n + 1` when `n` was past the end, the cell is `val`, the rest is kept or Null. */
  lemma AssignedCells(data: seq<Object>, n: nat, val: Object)
    ensures |Assigned(data, n, val)| == if n < |data| then |data| else n + 1
    ensures Assigned(data, n, val)[n] == val
    ensures forall k :: 0 <= k < |data| && k != n ==> Assigned(data, n, val)[k] == data[k]
    ensures forall k :: |data| <= k < n ==> Assigned(data, n, val)[k] == Object.Null
  {
    if n >= |data| {
      var padded := data + Nulls(n - |data| + 1);
      forall k | |data| <= k < n
        ensures Assigned(data, n, val)[k] == Object.Null
      {
        assert padded[k] == Nulls(n - |data| + 1)[k - |data|];
      }
    }
  }

  // ---------------------------------------------------------------------------
  // Binding by position, and the columns `run_process` writes.

  /** Binding leaves the depth of the stack alone, and fails exactly when a value is missing. */
  lemma {:induction false} BindAllOutcome<W>(st: State<W>, names: seq<string>, values: seq<Object>, i: nat)
    requires i <= |names|
    ensures |BindAll(st, names, values, i).1.scopes| == |st.scopes|
    ensures BindAll(st, names, values, i).0 == if i < |names| && |values| < |names| then Panic(OUT_OF_BOUNDS) else Ok(())
    decreases |names| - i
  {
    if i < |names| && i < |values| {
      BindAllOutcome(InsertTop(st, names[i], values[i]), names, values, i + 1);
    }
  }

  /** With values for all, binding into the top scope gives each name its value, the last binding of a repeated name winning. */
  lemma {:induction false} BindAllBinds<W>(st: State<W>, names: seq<string>, values: seq<Object>, i: nat, j: nat)
    requires i <= j < |names| <= |values|
    requires forall k :: j < k < |names| ==> names[k] != names[j]
    ensures GetVariable(BindAll(st, names, values, i).1, names[j]) == values[j]
    decreases |names| - i
  {
    var next := InsertTop(st, names[i], values[i]);
    if i < j {
      BindAllBinds(next, names, values, i + 1, j);
    } else {
      InsertTopFrame(st, names[i], values[i]);
      BindAllKeeps(next, names, values, i + 1, names[j]);
    }
  }

  /** Binding names other than `other` leaves `other` as it was. */
  lemma {:induction false} BindAllKeeps<W>(st: State<W>, names: seq<string>, values: seq<Object>, i: nat, other: string)
    requires i <= |names|
    requires forall k :: i <= k < |names| ==> names[k] != other
    ensures GetVariable(BindAll(st, names, values, i).1, other) == GetVariable(st, other)
    decreases |names| - i
  {
    if i < |names| && i < |values| {
      InsertTopFrame(st, names[i], values[i]);
      BindAllKeeps(InsertTop(st, names[i], values[i]), names, values, i + 1, other);
    }
  }

  /** `run_process` writes the Column variables of the top scope, in the map's order, each with its own value. */
  lemma {:induction false} ColumnNamesAreColumns(top: Scope, keys: seq<string>)
    ensures forall n :: n in ColumnNames(top, keys) <==> n in keys && n in top && top[n].Column?
    ensures |ValuesOf(top, ColumnNames(top, keys))| == |ColumnNames(top, keys)|
    ensures forall k :: 0 <= k < |ColumnNames(top, keys)| ==>
      ValuesOf(top, ColumnNames(top, keys))[k] == top[ColumnNames(top, keys)[k]]
  {
    ColumnNamesMembers(top, keys);
    ValuesOfNames(top, ColumnNames(top, keys));
  }

  lemma {:induction false} ColumnNamesMembers(top: Scope, keys: seq<string>)
    ensures forall n :: n in ColumnNames(top, keys) <==> n in keys && n in top && top[n].Column?
    decreases |keys|
  {
    if |keys| > 0 {
      var init := keys[..|keys| - 1];
      ColumnNamesMembers(top, init);
      assert keys == init + [keys[|keys| - 1]];
    }
  }

  lemma {:induction false} ValuesOfNames(top: Scope, names: seq<string>)
    requires forall n :: n in names ==> n in top
    ensures |ValuesOf(top, names)| == |names|
    ensures forall k :: 0 <= k < |names| ==> ValuesOf(top, names)[k] == top[names[k]]
    decreases |names|
  {
    if |names| > 0 {
      var init := names[..|names| - 1];
      assert forall n :: n in init ==> n in names;
      ValuesOfNames(top, init);
    }
  }

  /** With distinct keys, every Column variable is written exactly once. */
  lemma {:induction false} ColumnNamesDistinct(top: Scope, keys: seq<string>)
    requires forall i, j :: 0 <= i < j < |keys| ==> keys[i] != keys[j]
    ensures forall i, j :: 0 <= i < j < |ColumnNames(top, keys)| ==> ColumnNames(top, keys)[i] != ColumnNames(top, keys)[j]
    decreases |keys|
  {
    if |keys| > 0 {
      var init := keys[..|keys| - 1];
      ColumnNamesDistinct(top, init);
      ColumnNamesMembers(top, init);
    }
  }

  /**
   * Under a true `HashMap` order, `run_process` writes exactly the Column
   * variables of the top scope, each of them once.
   */
  lemma ProcessWritesEachColumnOnce(order: Scope -> seq<string>, top: Scope)
    requires ListsEachKeyOnce(order)
    ensures forall n :: n in ColumnNames(top, order(top)) <==> n in top && top[n].Column?
    ensures forall i, j :: 0 <= i < j < |ColumnNames(top, order(top))| ==>
      ColumnNames(top, order(top))[i] != ColumnNames(top, order(top))[j]
  {
    var keys := order(top);
    assert forall i, j :: 0 <= i < j < |keys| ==> keys[i] != keys[j];
    ColumnNamesMembers(top, keys);
    ColumnNamesDistinct(top, keys);
  }

  // ---------------------------------------------------------------------------
  // Expressions.

  /**
   * `eval_arrayindex`: a non-Int index, a negative index and a non-Array
   * target are errors, in that order; otherwise the index is cast to a 32-bit
   * `usize`, and a cast index inside the array gives its cell while one past
   * its end panics.
   */
  lemma IndexIntoCases(target: Object, index: Object, line: nat)
    ensures !index.Int? ==> IndexInto(target, index, line) == Fail(INDEX_NOT_INT, line)
    ensures index.Int? && index.i < 0 ==> IndexInto(target, index, line) == Fail(INDEX_NEGATIVE, line)
    ensures index.Int? && index.i >= 0 && !target.Array? ==> IndexInto(target, index, line) == Fail(INDEX_NOT_ARRAY, line)
    ensures IndexInto(target, index, line).Ok? <==>
      index.Int? && index.i >= 0 && target.Array? && ToUsize(index.i) < |target.items|
    ensures index.Int? && 0 <= index.i < USIZE_LIMIT && target.Array? ==>
      (if index.i < |target.items| then IndexInto(target, index, line) == Ok(target.items[index.i])
       else IndexInto(target, index, line) == Panic(OUT_OF_BOUNDS))
  {
  }

  /** `eval_literal`: an identifier reads its variable, any other literal is its own value, and the state is unchanged. */
  lemma LiteralLookup<W>(c: Config<W>, st: State<W>, obj: Object, fuel: nat)
    requires fuel > 0
    ensures obj.Identifier? ==> Eval(c, st, Expression.Literal(obj), fuel) == (Ok(GetVariable(st, obj.name)), st)
    ensures !obj.Identifier? ==> Eval(c, st, Expression.Literal(obj), fuel) == (Ok(obj), st)
  {
    SemanticsSteps.EvalLiteralStep(c, st, obj, fuel);
  }

  /** The tokens `eval_binary` maps to an operation. */
  predicate BinaryOperatorToken(op: TokenType)
  {
    op.Plus? || op.Minus? || op.Asterisk? || op.Slash? || op.Caret? || op.PlusMinus? ||
    op.EqualEqual? || op.NotEqual? || op.Or? || op.And? ||
    op.LessThan? || op.LessThanEqual? || op.GreaterThan? || op.GreaterThanEqual?
  }

  /** Any token but the fourteen operators makes a binary expression an error. */
  lemma NonOperatorFails(op: TokenType, a: Object, b: Object, line: nat, m: Operations.DecimalMath)
    ensures !BinaryOperatorToken(op) ==> BinaryOp(op, a, b, line, m) == Fail(NO_BINARY_OPERATOR, line)
  {
  }

  // ---------------------------------------------------------------------------
  // Function calls.

  /** What `EvalAll` leaves: one value per expression, after the values it started from. */
  lemma {:induction false} EvalAllValues<W>(c: Config<W>, st: State<W>, es: seq<Expression>, done: seq<Object>, fuel: nat)
    requires |done| <= |es|
    ensures EvalAll(c, st, es, done, fuel).0.Ok? ==>
      |EvalAll(c, st, es, done, fuel).0.value| == |es| && EvalAll(c, st, es, done, fuel).0.value[..|done|] == done
    decreases |es| - |done|
  {
    if fuel > 0 && |done| < |es| {
      var (v, st1) := Eval(c, st, es[|done|], fuel - 1);
      SemanticsSteps.EvalAllStep(c, st, es, done, fuel, v, st1);
      if v.Ok? {
        var more := done + [v.value];
        EvalAllValues(c, st1, es, more, fuel);
        var r := EvalAll(c, st1, es, more, fuel).0;
        if r.Ok? {
          assert r.value[..|done|] == r.value[..|more|][..|done|];
        }
      }
    }
  }

  /** The number of Uncertain values in `vs[i..]`. */
  function UncertainsFrom(vs: seq<Object>, i: nat): nat
    decreases |vs| - i
  {
    if i >= |vs| then 0 else (if vs[i].Uncertain? then 1 else 0) + UncertainsFrom(vs, i + 1)
  }

  /** Whether `vs[i..]` holds a Column value. */
  predicate ColumnFrom(vs: seq<Object>, i: nat)
  {
    exists k :: i <= k < |vs| && vs[k].Column?
  }

  /**
   * The first pass of `eval_function_call` evaluates the arguments as the
   * second does: when they all evaluate, it succeeds exactly when at most one
   * of them is Uncertain (failing otherwise with the error that says so),
   * reports whether one is Uncertain and whether one is a Column, and leaves
   * the same state.
   */
  lemma {:induction false} ScanArgsAgrees<W>(c: Config<W>, st: State<W>, args: seq<Expression>, i: nat, uncertain: bool, column: bool,
                                             done: seq<Object>, fuel: nat)
    requires i == |done| <= |args|
    ensures EvalAll(c, st, args, done, fuel).0.Ok? ==>
      |EvalAll(c, st, args, done, fuel).0.value| == |args| &&
      var vs := EvalAll(c, st, args, done, fuel).0.value;
      var scan := ScanArgs(c, st, args, i, uncertain, column, fuel);
      (scan.0.Ok? <==> (if uncertain then 1 else 0) + UncertainsFrom(vs, i) <= 1) &&
      (!scan.0.Ok? ==> scan.0.Err? && scan.0.error.message == TWO_UNCERTAINTIES) &&
      (scan.0.Ok? ==>
         scan.0.value == (uncertain || UncertainsFrom(vs, i) > 0, column || ColumnFrom(vs, i)) &&
         scan.1 == EvalAll(c, st, args, done, fuel).1)
    decreases |args| - i
  {
    EvalAllValues(c, st, args, done, fuel);
    if fuel > 0 && i < |args| {
      var (v, st1) := Eval(c, st, args[i], fuel - 1);
      SemanticsSteps.EvalAllStep(c, st, args, done, fuel, v, st1);
      SemanticsSteps.ScanArgsStep(c, st, args, i, uncertain, column, fuel, v, st1);
      if v.Ok? {
        var more := done + [v.value];
        EvalAllValues(c, st1, args, more, fuel);
        ScanArgsAgrees(c, st1, args, i + 1, uncertain || v.value.Uncertain?, column || v.value.Column?, more, fuel);
        var r := EvalAll(c, st1, args, more, fuel).0;
        if r.Ok? {
          assert r.value[i] == r.value[..|more|][i];
          assert ColumnFrom(r.value, i) <==> r.value[i].Column? || ColumnFrom(r.value, i + 1);
        }
      }
    }
  }

  /**
   * `eval_function_call`: when the arguments all evaluate, two or more
   * Uncertain values make the call an error, and otherwise a Column value
   * makes it Null without calling anything.
   */
  lemma CallArguments<W>(c: Config<W>, st: State<W>, id: string, args: seq<Expression>, fuel: nat)
    requires fuel > 0
    ensures EvalAll(c, st, args, [], fuel - 1).0.Ok? ==>
      var vs := EvalAll(c, st, args, [], fuel - 1).0.value;
      (UncertainsFrom(vs, 0) >= 2 ==>
         EvalCall(c, st, id, args, fuel).0.Err? && EvalCall(c, st, id, args, fuel).0.error.message == TWO_UNCERTAINTIES) &&
      (UncertainsFrom(vs, 0) <= 1 && ColumnFrom(vs, 0) ==>
         EvalCall(c, st, id, args, fuel) == (Ok(Object.Null), EvalAll(c, st, args, [], fuel - 1).1))
  {
    ScanArgsAgrees(c, st, args, 0, false, false, [], fuel - 1);
    SemanticsSteps.EvalCallUnfold(c, st, id, args, fuel);
  }

  /**
   * A call pushes one scope, binds the parameters in order and runs the body:
   * too few arguments panic; a parameter named once reads its argument; and
   * when the body keeps the depth of the stack, a successful call reads
   * `return` and pops, so the depth is as before the call.
   */
  lemma InvokeFrame<W>(c: Config<W>, st: State<W>, params: seq<string>, block: Statement, args: seq<Object>, fuel: nat)
    requires fuel > 0
    ensures |args| < |params| ==> Invoke(c, st, params, block, args, fuel).0 == Panic(OUT_OF_BOUNDS)
    ensures |params| <= |args| ==>
      var st1 := BindAll(Push(st), params, args, 0).1;
      |st1.scopes| == |st.scopes| + 1 &&
      (forall j :: 0 <= j < |params| && (forall k :: j < k < |params| ==> params[k] != params[j]) ==>
         GetVariable(st1, params[j]) == args[j]) &&
      var ran := Exec(c, st1, block, fuel - 1);
      (ran.0.Ok? && |ran.1.scopes| == |st1.scopes| ==>
         Invoke(c, st, params, block, args, fuel) == (Ok(GetVariable(ran.1, RETURN_VARIABLE)), Pop(ran.1)) &&
         |Pop(ran.1).scopes| == |st.scopes|)
  {
    BindAllOutcome(Push(st), params, args, 0);
    var (bound, st1) := BindAll(Push(st), params, args, 0);
    SemanticsSteps.InvokeStep(c, st, params, block, args, fuel, bound, st1);
    if |params| <= |args| {
      forall j | 0 <= j < |params| && (forall k :: j < k < |params| ==> params[k] != params[j])
        ensures GetVariable(st1, params[j]) == args[j]
      {
        BindAllBinds(Push(st), params, args, 0, j);
      }
    }
  }

  /**
   * `call_function`: a Function variable runs itself; otherwise the standard
   * library decides, an error of it is passed on, nothing found is an error
   * naming the function, and a Hawk function it returns is cached in the
   * globals, so that a later call finds it directly when no scope hides it.
   */
  lemma CallFunctionLookup<W>(c: Config<W>, st: State<W>, id: string, args: seq<Object>, fuel: nat)
    requires fuel > 0
    ensures GetVariable(st, id).Function? ==>
      CallFunction(c, st, id, args, fuel) == Invoke(c, st, GetVariable(st, id).params, GetVariable(st, id).block, args, fuel - 1)
    ensures !GetVariable(st, id).Function? ==>
      var std := StandardLib.RunFnStd(c.lib, c.cb, st.world, st.line, id, args);
      (!std.Ok? ==> CallFunction(c, st, id, args, fuel) == (std.PropagateFailure(), st)) &&
      (std.Ok? && std.value.0.None? ==>
         CallFunction(c, st, id, args, fuel) == (Fail(NOT_FUNCTION_BEFORE + id + NOT_FUNCTION_AFTER, st.line), st.(world := std.value.1))) &&
      (std.Ok? && std.value.0.Some? && !std.value.0.value.Function? ==>
         CallFunction(c, st, id, args, fuel) == (Ok(std.value.0.value), st.(world := std.value.1)))
    ensures !GetVariable(st, id).Function? && (forall k :: 0 <= k < |st.scopes| ==> id !in st.scopes[k]) ==>
      var std := StandardLib.RunFnStd(c.lib, c.cb, st.world, st.line, id, args);
      std.Ok? && std.value.0.Some? && std.value.0.value.Function? ==>
        var found := std.value.0.value;
        var cached := st.(world := std.value.1, globals := st.globals[id := found]);
        CallFunction(c, st, id, args, fuel) == Invoke(c, cached, found.params, found.block, args, fuel - 1) &&
        forall later: seq<Object> :: CallFunction(c, cached, id, later, fuel) == Invoke(c, cached, found.params, found.block, later, fuel - 1)
  {
    SemanticsSteps.CallFunctionUnfold(c, st, id, args, fuel);
    var std := StandardLib.RunFnStd(c.lib, c.cb, st.world, st.line, id, args);
    if !GetVariable(st, id).Function? && (forall k :: 0 <= k < |st.scopes| ==> id !in st.scopes[k]) &&
       std.Ok? && std.value.0.Some? && std.value.0.value.Function? {
      var found := std.value.0.value;
      var cached := st.(world := std.value.1, globals := st.globals[id := found]);
      HolderNone(cached.scopes, id);
      FindViaHolder(cached.scopes, cached.globals, id);
      forall later: seq<Object>
        ensures CallFunction(c, cached, id, later, fuel) == Invoke(c, cached, found.params, found.block, later, fuel - 1)
      {
        SemanticsSteps.CallFunctionUnfold(c, cached, id, later, fuel);
      }
    }
  }

  // ---------------------------------------------------------------------------
  // Finder calls.

  /** Whether the variables of both sides of equation `k` are computed. */
  predicate Listed(eqs: seq<(Expression, Expression)>, k: nat)
    requires k < |eqs|
  {
    PlaceholderCas.GetVariables(eqs[k].0).Ok? && PlaceholderCas.GetVariables(eqs[k].1).Ok?
  }

  /** Whether equation `k` mentions a given name or the target. */
  predicate RelevantAt(eqs: seq<(Expression, Expression)>, given: seq<(string, Expression)>, toFind: string, k: nat)
    requires k < |eqs|
  {
    Listed(eqs, k) &&
    Relevant(PlaceholderCas.GetVariables(eqs[k].0).value + PlaceholderCas.GetVariables(eqs[k].1).value, given, toFind)
  }

  /**
   * The choice of `eval_finder_call`: it succeeds exactly when the variables of
   * every equation are computed, and then settles on the last equation that
   * mentions a given name or the target, or on none.
   */
  lemma {:induction false} ViableIsLastRelevant(eqs: seq<(Expression, Expression)>, given: seq<(string, Expression)>, toFind: string,
                                                i: nat, found: Option<(Expression, Expression)>)
    requires i <= |eqs|
    ensures Viable(eqs, given, toFind, i, found).Ok? <==> forall k :: i <= k < |eqs| ==> Listed(eqs, k)
    ensures Viable(eqs, given, toFind, i, found).Ok? ==>
      var r := Viable(eqs, given, toFind, i, found).value;
      (r == found && forall k :: i <= k < |eqs| ==> !RelevantAt(eqs, given, toFind, k)) ||
      (exists k :: i <= k < |eqs| && RelevantAt(eqs, given, toFind, k) && r == Some(eqs[k]) &&
         forall j :: k < j < |eqs| ==> !RelevantAt(eqs, given, toFind, j))
    decreases |eqs| - i
  {
    if i < |eqs| {
      var lhs := PlaceholderCas.GetVariables(eqs[i].0);
      var rhs := PlaceholderCas.GetVariables(eqs[i].1);
      if lhs.Ok? && rhs.Ok? {
        var next := if Relevant(lhs.value + rhs.value, given, toFind) then Some(eqs[i]) else found;
        assert Viable(eqs, given, toFind, i, found) == Viable(eqs, given, toFind, i + 1, next);
        ViableIsLastRelevant(eqs, given, toFind, i + 1, next);
        var v := Viable(eqs, given, toFind, i + 1, next);
        if v.Ok? && v.value == next && (forall k :: i + 1 <= k < |eqs| ==> !RelevantAt(eqs, given, toFind, k)) {
          if RelevantAt(eqs, given, toFind, i) {
            assert v.value == Some(eqs[i]);
          }
        }
      } else {
        assert !Listed(eqs, i);
      }
    }
  }

  /** Whether the variables of every equation are computed and none mentions a given name or the target. */
  predicate NoneRelevant(eqs: seq<(Expression, Expression)>, given: seq<(string, Expression)>, toFind: string)
  {
    forall k :: 0 <= k < |eqs| ==> Listed(eqs, k) && !RelevantAt(eqs, given, toFind, k)
  }

  /** The finder `eval_finder_call` uses: the standard library's, else the variable's value. */
  function FinderFor<W>(c: Config<W>, st: State<W>, id: string): Object
  {
    if c.lib.hawkFinder(id).Some? then c.lib.hawkFinder(id).value else GetVariable(st, id)
  }

  /**
   * `eval_finder_call`: a name that is no finder is an error naming its value;
   * and when no equation of the finder mentions a given name or the target,
   * the call is the error "No viable equation found".
   */
  lemma FinderWithoutEquation<W>(c: Config<W>, st: State<W>, id: string, given: seq<(string, Expression)>, toFind: string, fuel: nat)
    requires fuel > 0
    ensures !FinderFor(c, st, id).Finder? ==>
      EvalFinder(c, st, id, given, toFind, fuel) == (Fail(NOT_FINDER + Operations.Render(FinderFor(c, st, id)), st.line), st)
    ensures FinderFor(c, st, id).Finder? && NoneRelevant(FinderFor(c, st, id).equations, given, toFind) ==>
      EvalFinder(c, st, id, given, toFind, fuel) == (Fail(NO_VIABLE_EQUATION, st.line), Push(st))
  {
    SemanticsSteps.EvalFinderUnfold(c, st, id, given, toFind, fuel);
    var f := FinderFor(c, st, id);
    if f.Finder? {
      ViableIsLastRelevant(f.equations, given, toFind, 0, None);
    }
  }

  /**
   * A viable equation the solver rejects: once the given values are bound,
   * the call is the solver's error, and the scope the call pushed is not
   * popped. With nothing given, `2/x = 4` solved for `x` is the line-4 error
   * on the state with the new scope on top.
   */
  lemma FinderSolverRejects<W>(c: Config<W>, st: State<W>, id: string, given: seq<(string, Expression)>, toFind: string,
                                fuel: nat, eq: (Expression, Expression), st2: State<W>)
    requires fuel > 0 && FinderFor(c, st, id).Finder?
    requires Viable(FinderFor(c, st, id).equations, given, toFind, 0, None) == Ok(Some(eq))
    requires BindGiven(c, Push(st), given, 0, fuel - 1) == (Ok(()), st2)
    requires PlaceholderCas.SolveForAsWritten(eq.0, eq.1, toFind).Err?
    ensures EvalFinder(c, st, id, given, toFind, fuel) ==
      (PlaceholderCas.SolveForAsWritten(eq.0, eq.1, toFind).PropagateFailure(), st2)
    ensures given == [] ==> st2 == Push(st)
    ensures (eq == (Binary(Literal(Object.Int(2)), Literal(Object.Identifier("x")), TokenType.Slash), Literal(Object.Int(4))) &&
             toFind == "x") ==>
      EvalFinder(c, st, id, given, toFind, fuel) == (Fail("Cannot handle this equaion", 4), st2)
  {
    SemanticsSteps.EvalFinderUnfold(c, st, id, given, toFind, fuel);
    if eq == (Binary(Literal(Object.Int(2)), Literal(Object.Identifier("x")), TokenType.Slash), Literal(Object.Int(4))) && toFind == "x" {
      PlaceholderCas.AsWrittenRejectsNumberOperand();
    }
  }

  // ---------------------------------------------------------------------------
  // Statements.

  /** Running `a + b` from position `|a|` or later is running `b` alone. */
  lemma {:induction false} ExecAllShift<W>(c: Config<W>, st: State<W>, a: seq<Statement>, b: seq<Statement>, i: nat, fuel: nat)
    requires |a| <= i <= |a| + |b|
    ensures ExecAll(c, st, a + b, i, fuel) == ExecAll(c, st, b, i - |a|, fuel)
    decreases |a| + |b| - i
  {
    if fuel > 0 && i < |a| + |b| {
      assert (a + b)[i] == b[i - |a|];
      var (r, st1) := Exec(c, st, b[i - |a|], fuel - 1);
      SemanticsSteps.ExecAllStep(c, st, a + b, i, fuel, r, st1);
      SemanticsSteps.ExecAllStep(c, st, b, i - |a|, fuel, r, st1);
      if r.Ok? {
        ExecAllShift(c, st1, a, b, i + 1, fuel);
      }
    }
  }

  /**
   * Statements run in list order: `a + b` runs `a`, and runs `b` from the
   * state `a` leaves only when `a` succeeds; a failure in `a` is the outcome,
   * and no statement of `b` runs.
   */
  lemma {:induction false} ExecAllConcat<W>(c: Config<W>, st: State<W>, a: seq<Statement>, b: seq<Statement>, i: nat, fuel: nat)
    requires i <= |a|
    ensures ExecAll(c, st, a + b, i, fuel) ==
      if ExecAll(c, st, a, i, fuel).0.Ok? then ExecAll(c, ExecAll(c, st, a, i, fuel).1, b, 0, fuel)
      else ExecAll(c, st, a, i, fuel)
    decreases |a| - i
  {
    if fuel > 0 {
      if i == |a| {
        ExecAllShift(c, st, a, b, i, fuel);
      } else {
        assert (a + b)[i] == a[i];
        var (r, st1) := Exec(c, st, a[i], fuel - 1);
        SemanticsSteps.ExecAllStep(c, st, a + b, i, fuel, r, st1);
        SemanticsSteps.ExecAllStep(c, st, a, i, fuel, r, st1);
        if r.Ok? {
          ExecAllConcat(c, st1, a, b, i + 1, fuel);
        }
      }
    }
  }

  /**
   * `interpret` starts with no scope, no loop and line 1, and stops at the
   * first failing statement: a failure among the statements `a` is the
   * outcome whatever statements follow them.
   */
  lemma InterpretStopsAtFailure<W>(c: Config<W>, a: seq<Statement>, b: seq<Statement>, globals: Scope, inRepl: bool, world: W, fuel: nat)
    requires fuel > 0
    ensures Initial(globals, inRepl, world) == State(globals, [], 0, 1, inRepl, world)
    ensures !ExecAll(c, Initial(globals, inRepl, world), a, 0, fuel - 1).0.Ok? ==>
      Interpret(c, a + b, globals, inRepl, world, fuel) == Interpret(c, a, globals, inRepl, world, fuel) &&
      Interpret(c, a + b, globals, inRepl, world, fuel).0 == ExecAll(c, Initial(globals, inRepl, world), a, 0, fuel - 1).0.PropagateFailure()
  {
    ExecAllConcat(c, Initial(globals, inRepl, world), a, b, 0, fuel - 1);
  }

  /** `run_while` succeeds only once its loop is no longer the innermost one: `loops` then differs from `current`. */
  lemma {:induction false} WhileOkLeavesLoop<W>(c: Config<W>, st: State<W>, cond: Expression, block: Statement, current: nat, fuel: nat)
    ensures WhileFrom(c, st, cond, block, current, fuel).0.Ok? ==> WhileFrom(c, st, cond, block, current, fuel).1.loops != current
    decreases fuel, 1
  {
    if fuel > 0 {
      var (v, st1) := Eval(c, st, cond, fuel - 1);
      if v.Ok? && v.value.Boolean? && v.value.b && st1.loops == current {
        var (r, st2) := Exec(c, st1, block, fuel - 1);
        if r.Ok? {
          WhileOkLeavesLoop(c, st2, cond, block, current, fuel - 1);
        }
      }
    }
  }

  /** A round that runs the body keeps the property of the rounds after it. */
  lemma WhileOkRound<W>(c: Config<W>, st: State<W>, cond: Expression, block: Statement, current: nat, fuel: nat,
                        st1: State<W>, r: Result<()>, st2: State<W>)
    requires fuel > 0 && Eval(c, st, cond, fuel - 1) == (Ok(Object.Boolean(true)), st1) && st1.loops == current
    requires Exec(c, st1, block, fuel - 1) == (r, st2)
    requires WhileFrom(c, st2, cond, block, current, fuel - 1).0.Ok? ==> WhileFrom(c, st2, cond, block, current, fuel - 1).1.loops != current
    ensures WhileFrom(c, st, cond, block, current, fuel).0.Ok? ==> WhileFrom(c, st, cond, block, current, fuel).1.loops != current
  {
    SemanticsSteps.WhileRound(c, st, cond, block, current, fuel, Ok(Object.Boolean(true)), st1, r, st2);
  }

  /** A round that does not run the body succeeds only with `loops` away from `current`. */
  lemma WhileOkExit<W>(c: Config<W>, st: State<W>, cond: Expression, block: Statement, current: nat, fuel: nat,
                       v: Result<Object>, st1: State<W>)
    requires fuel > 0 && Eval(c, st, cond, fuel - 1) == (v, st1)
    requires !(v.Ok? && v.value.Boolean? && v.value.b && st1.loops == current)
    ensures WhileFrom(c, st, cond, block, current, fuel).0.Ok? ==> WhileFrom(c, st, cond, block, current, fuel).1.loops != current
    ensures v.Ok? && v.value.Boolean? && st1.loops != current ==> WhileFrom(c, st, cond, block, current, fuel) == (Ok(()), st1)
    ensures v.Ok? && v.value == Object.Boolean(false) && st1.loops == current && current > 0 ==>
      WhileFrom(c, st, cond, block, current, fuel) == (Ok(()), st1.(loops := current - 1))
  {
    SemanticsSteps.WhileExit(c, st, cond, block, current, fuel, v, st1);
  }

  /** `run_loop` succeeds only once a `break` has changed `loops` from `current`. */
  lemma {:induction false} LoopOkLeavesLoop<W>(c: Config<W>, st: State<W>, block: Statement, current: nat, fuel: nat)
    ensures LoopFrom(c, st, block, current, fuel).0.Ok? ==> LoopFrom(c, st, block, current, fuel).1.loops != current
    decreases fuel
  {
    if fuel > 0 {
      SemanticsSteps.LoopStep(c, st, block, current, fuel);
      if st.loops == current {
        var (r, st1) := Exec(c, st, block, fuel - 1);
        if r.Ok? {
          LoopOkLeavesLoop(c, st1, block, current, fuel - 1);
        }
      }
    }
  }

  /**
   * A `while` whose condition is false on entry runs no round, and (when the
   * evaluation leaves `loops` alone) gives `loops` back its value before the
   * loop.
   */
  lemma WhileFalseRestores<W>(c: Config<W>, st: State<W>, cond: Expression, block: Statement, fuel: nat, st1: State<W>)
    requires fuel >= 2 && st.loops + 1 < USIZE_LIMIT
    requires Eval(c, st.(loops := st.loops + 1), cond, fuel - 1 - 1) == (Ok(Object.Boolean(false)), st1)
    requires st1.loops == st.loops + 1
    ensures Exec(c, st, Statement.While(cond, block), fuel) == (Ok(()), st1.(loops := st.loops))
  {
    var entered := st.(loops := st.loops + 1);
    SemanticsSteps.WhileExit(c, entered, cond, block, st.loops + 1, fuel - 1, Ok(Object.Boolean(false)), st1);
    assert WhileFrom(c, entered, cond, block, st.loops + 1, fuel - 1) == Decremented(st1);
    assert Incremented(st) == (Ok(()), entered);
    SemanticsSteps.ExecWhileStep(c, st, cond, block, fuel);
  }

  /**
   * A round of `run_while` whose body breaks: the body lowers `loops` to
   * `current - 1`, the condition is evaluated once more and, being Boolean,
   * ends the loop with `loops` at `current - 1`, its value before the loop.
   */
  lemma WhileBreakRestores<W>(c: Config<W>, st: State<W>, cond: Expression, block: Statement, current: nat, fuel: nat,
                              st1: State<W>, st2: State<W>, w: Object, st3: State<W>)
    requires fuel >= 2 && current > 0
    requires Eval(c, st, cond, fuel - 1) == (Ok(Object.Boolean(true)), st1) && st1.loops == current
    requires Exec(c, st1, block, fuel - 1) == (Ok(()), st2) && st2.loops == current - 1
    requires Eval(c, st2, cond, fuel - 1 - 1) == (Ok(w), st3) && w.Boolean? && st3.loops == st2.loops
    ensures WhileFrom(c, st, cond, block, current, fuel) == (Ok(()), st3)
    ensures st3.loops == current - 1
  {
    SemanticsSteps.WhileExit(c, st2, cond, block, current, fuel - 1, Ok(w), st3);
    assert WhileFrom(c, st2, cond, block, current, fuel - 1) == (Ok(()), st3);
    SemanticsSteps.WhileRound(c, st, cond, block, current, fuel, Ok(Object.Boolean(true)), st1, Ok(()), st2);
  }

  /** A round whose condition holds and whose body succeeds leads to the next round. */
  lemma WhileBodyRan<W>(c: Config<W>, st: State<W>, cond: Expression, block: Statement, current: nat, fuel: nat,
                        st1: State<W>, st2: State<W>)
    requires fuel > 0
    requires Eval(c, st, cond, fuel - 1) == (Ok(Object.Boolean(true)), st1) && st1.loops == current
    requires Exec(c, st1, block, fuel - 1) == (Ok(()), st2)
    ensures WhileFrom(c, st, cond, block, current, fuel) == WhileFrom(c, st2, cond, block, current, fuel - 1)
  {
    SemanticsSteps.WhileRound(c, st, cond, block, current, fuel, Ok(Object.Boolean(true)), st1, Ok(()), st2);
  }

  /** A round that finds a Boolean condition but `loops` away from `current` ends the loop there. */
  lemma WhileLeftLoop<W>(c: Config<W>, st: State<W>, cond: Expression, block: Statement, current: nat, fuel: nat,
                         w: Object, st1: State<W>)
    requires fuel > 0
    requires Eval(c, st, cond, fuel - 1) == (Ok(w), st1) && w.Boolean? && st1.loops != current
    ensures WhileFrom(c, st, cond, block, current, fuel) == (Ok(()), st1)
  {
    WhileOkExit(c, st, cond, block, current, fuel, Ok(w), st1);
  }

  /**
   * `if`, `if else` and `while` need a Boolean condition: any other value is
   * an error naming it, raised before any block runs; a Boolean condition of
   * `if else` runs exactly one of the two blocks, and a false one of `if` none.
   */
  lemma Conditions<W>(c: Config<W>, st: State<W>, cond: Expression, block: Statement, other: Statement, current: nat, fuel: nat,
                      v: Object, st1: State<W>)
    requires fuel > 0 && Eval(c, st, cond, fuel - 1) == (Ok(v), st1)
    ensures !v.Boolean? ==>
      Exec(c, st, Statement.If(cond, block), fuel) == (Fail(IF_NOT_BOOLEAN + Operations.Render(v), st1.line), st1) &&
      Exec(c, st, Statement.IfElse(cond, block, other), fuel) == (Fail(IF_ELSE_NOT_BOOLEAN + Operations.Render(v), st1.line), st1) &&
      WhileFrom(c, st, cond, block, current, fuel) == (Fail(WHILE_NOT_BOOLEAN + Operations.Render(v), st1.line), st1)
    ensures v.Boolean? ==>
      Exec(c, st, Statement.IfElse(cond, block, other), fuel) == Exec(c, st1, if v.b then block else other, fuel - 1) &&
      Exec(c, st, Statement.If(cond, block), fuel) == if v.b then Exec(c, st1, block, fuel - 1) else (Ok(()), st1)
  {
    SemanticsSteps.ExecIfStep(c, st, cond, block, fuel, Ok(v), st1);
    SemanticsSteps.ExecIfElseStep(c, st, cond, block, other, fuel, Ok(v), st1);
    if !v.Boolean? {
      SemanticsSteps.WhileExit(c, st, cond, block, current, fuel, Ok(v), st1);
    }
  }

  /**
   * `Line` counts one line, panicking when the `usize` counter would wrap; an
   * expression statement outputs its value only in the REPL, and otherwise
   * leaves the state its evaluation left.
   */
  lemma LineAndExpression<W>(c: Config<W>, st: State<W>, e: Expression, fuel: nat, v: Object, st1: State<W>)
    requires fuel > 0 && Eval(c, st, e, fuel - 1) == (Ok(v), st1)
    ensures Exec(c, st, Statement.Line, fuel) ==
      if st.line + 1 < USIZE_LIMIT then (Ok(()), st.(line := st.line + 1)) else (Panic(ADD_OVERFLOW), st)
    ensures !st1.inRepl ==> Exec(c, st, Statement.Expression(e), fuel) == (Ok(()), st1)
    ensures st1.inRepl ==> Exec(c, st, Statement.Expression(e), fuel) == Output(c, st1, v)
  {
    SemanticsSteps.ExecLineStep(c, st, fuel);
    SemanticsSteps.ExecExpressionStep(c, st, e, fuel, Ok(v), st1);
  }

  /**
   * `run_array_assign`: a variable that is not an Array is left alone and
   * nothing is evaluated; a non-Int index writes nothing; an Int index, cast
   * to `usize`, writes the array padded with Nulls back under the name and
   * leaves every other name as it was.
   */
  lemma ArrayAssignEffect<W>(c: Config<W>, st: State<W>, name: string, idx: Expression, e: Expression, fuel: nat,
                             i: Object, st1: State<W>, v: Object, st2: State<W>)
    requires fuel > 0
    ensures !GetVariable(st, name).Array? ==> ExecArrayAssign(c, st, name, idx, e, fuel) == (Ok(()), st)
    ensures GetVariable(st, name).Array? && Eval(c, st, idx, fuel - 1) == (Ok(i), st1) && Eval(c, st1, e, fuel - 1) == (Ok(v), st2) ==>
      var data := GetVariable(st, name).items;
      var after := ExecArrayAssign(c, st, name, idx, e, fuel);
      after.0.Ok? &&
      (!i.Int? ==> after.1 == st2) &&
      (i.Int? ==>
         var n := ToUsize(i.i);
         var written := GetVariable(after.1, name);
         written.Array? &&
         |written.items| == (if n < |data| then |data| else n + 1) &&
         written.items[n] == v &&
         (forall k :: 0 <= k < |data| && k != n ==> written.items[k] == data[k]) &&
         (forall k :: |data| <= k < n ==> written.items[k] == Object.Null) &&
         (forall o :: o != name ==> GetVariable(after.1, o) == GetVariable(st2, o)))
  {
    if GetVariable(st, name).Array? && Eval(c, st, idx, fuel - 1) == (Ok(i), st1) && Eval(c, st1, e, fuel - 1) == (Ok(v), st2) {
      SemanticsSteps.ExecArrayAssignEvaluated(c, st, name, idx, e, fuel, Ok(i), st1, Ok(v), st2);
      if i.Int? {
        var n := ToUsize(i.i);
        var data := GetVariable(st, name).items;
        AssignedCells(data, n, v);
        WriteBackFrame(st2, name, Object.Array(Assigned(data, n, v)));
      }
    }
  }

  // ---------------------------------------------------------------------------
  // `run` and `run_script`.

  /** `run`: a lexing or parsing error is the outcome, unchanged, before anything is interpreted. */
  lemma RunStages<W>(c: Config<W>, source: string, globals: Scope, inRepl: bool, world: W, fuel: nat)
    ensures var tokens := Lexing.Lex(Lexing.Graphemes(source));
      (!tokens.Ok? ==> Run(c, source, globals, inRepl, world, fuel) == (tokens.PropagateFailure(), world)) &&
      (tokens.Ok? && !Parsing.Parsed(tokens.value).Ok? ==>
         Run(c, source, globals, inRepl, world, fuel) == (Parsing.Parsed(tokens.value).PropagateFailure(), world)) &&
      (tokens.Ok? && Parsing.Parsed(tokens.value).Ok? ==>
         Run(c, source, globals, inRepl, world, fuel) == Interpret(c, Parsing.Parsed(tokens.value).value, globals, inRepl, world, fuel))
  {
  }

  /**
   * `run_script` never passes an error on: an unreadable file and a failing
   * script are reported through `err` and give an empty map; the script runs
   * outside the REPL, and its globals are the result when it succeeds.
   */
  lemma RunScriptRouting<W>(c: Config<W>, filename: string, globals: Scope, world: W, fuel: nat)
    ensures !RunScript(c, filename, globals, world, fuel).0.Err?
    ensures c.cb.filein(world, filename).None? ==>
      RunScript(c, filename, globals, world, fuel) == (Ok(map[]), c.cb.err(world, UNREADABLE_FILE + filename, 0))
    ensures c.cb.filein(world, filename).Some? ==>
      var ran := Run(c, c.cb.filein(world, filename).value, globals, false, world, fuel);
      (ran.0.Err? ==> RunScript(c, filename, globals, world, fuel) == (Ok(map[]), c.cb.err(ran.1, ran.0.error.message, ran.0.error.line))) &&
      (!ran.0.Err? ==> RunScript(c, filename, globals, world, fuel) == ran)
  {
  }
}
