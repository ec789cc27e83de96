/** Properties of the operators: column distribution, inverses, totality and the documented examples. */
module OperationFacts {
  import opened Outcomes
  import opened Common
  import opened Operations

  /**
   * The cells from `i` on succeed exactly when every cell does, and then cell k
   * of the result is cell i+k of the operation.
   */
  lemma {:induction false} ColumnwiseCells(op: Arith, xs: seq<Object>, b: Object, line: nat, m: DecimalMath, i: nat)
    requires i <= |xs|
    ensures var r := Columnwise(op, xs, b, line, m, i);
      (r.Ok? <==> forall k | i <= k < |xs| :: Cell(op, xs, b, line, m, k).Ok?)
      && (r.Ok? ==>
            |r.value| == |xs| - i
            && forall k | 0 <= k < |r.value| :: Ok(r.value[k]) == Cell(op, xs, b, line, m, i + k))
    decreases |xs| - i
  {
    if i < |xs| {
      var r := Columnwise(op, xs, b, line, m, i);
      if !Cell(op, xs, b, line, m, i).Ok? {
        FailingCellFails(op, xs, b, line, m, i);
        return;
      }
      var rest := Columnwise(op, xs, b, line, m, i + 1);
      if !rest.Ok? {
        ColumnwiseCells(op, xs, b, line, m, i + 1);
        assert !r.Ok?;
        var j :| i + 1 <= j < |xs| && !Cell(op, xs, b, line, m, j).Ok?;
      } else {
        ColumnwiseCells(op, xs, b, line, m, i + 1);
        ColumnwiseCons(op, xs, b, line, m, i);
      }
    }
  }

  /** A succeeding cell followed by succeeding cells: the result is that cell's value, then theirs. */
  lemma ColumnwiseCons(op: Arith, xs: seq<Object>, b: Object, line: nat, m: DecimalMath, i: nat)
    requires i < |xs| && Cell(op, xs, b, line, m, i).Ok?
    requires var rest := Columnwise(op, xs, b, line, m, i + 1);
      rest.Ok? && |rest.value| == |xs| - i - 1 &&
      forall k | 0 <= k < |rest.value| :: Ok(rest.value[k]) == Cell(op, xs, b, line, m, i + 1 + k)
    ensures var r := Columnwise(op, xs, b, line, m, i);
      r.Ok? && |r.value| == |xs| - i && forall k | 0 <= k < |r.value| :: Ok(r.value[k]) == Cell(op, xs, b, line, m, i + k)
  {
    var rest := Columnwise(op, xs, b, line, m, i + 1).value;
    var r := Columnwise(op, xs, b, line, m, i);
    assert r == Ok([Cell(op, xs, b, line, m, i).value] + rest);
    forall k | 0 <= k < |r.value| ensures Ok(r.value[k]) == Cell(op, xs, b, line, m, i + k) {
      if k > 0 {
        assert r.value[k] == rest[k - 1];
      }
    }
  }

  /** A failing cell makes the Column operation fail from that cell on. */
  lemma FailingCellFails(op: Arith, xs: seq<Object>, b: Object, line: nat, m: DecimalMath, i: nat)
    requires i < |xs| && !Cell(op, xs, b, line, m, i).Ok?
    ensures !Columnwise(op, xs, b, line, m, i).Ok?
    ensures !(forall k | i <= k < |xs| :: Cell(op, xs, b, line, m, k).Ok?)
  {
    assert i <= i < |xs|;
  }

  /** When the cells from `i` on succeed, so does each single cell among them. */
  lemma {:induction false} CellOfSuccess(op: Arith, xs: seq<Object>, b: Object, line: nat, m: DecimalMath, i: nat, j: nat)
    requires i <= j < |xs|
    ensures Columnwise(op, xs, b, line, m, i).Ok? ==> Cell(op, xs, b, line, m, j).Ok?
    decreases j - i
  {
    if i < j {
      CellOfSuccess(op, xs, b, line, m, i + 1, j);
    }
  }

  /**
   * Column with Column is element-wise by index; the result has the left
   * column's length, and a right column shorter than the left one makes the
   * operation fail.
   */
  lemma ColumnByColumn(op: Arith, xs: seq<Object>, ys: seq<Object>, line: nat, m: DecimalMath)
    ensures var r := Arithmetic(op, Column(xs), Column(ys), line, m);
      (r.Ok? ==>
         r.value.Column? && |r.value.cells| == |xs| && |xs| <= |ys|
         && forall k | 0 <= k < |xs| :: Ok(r.value.cells[k]) == Arithmetic(op, xs[k], ys[k], line, m))
      && ((|xs| <= |ys| && forall k | 0 <= k < |xs| :: Arithmetic(op, xs[k], ys[k], line, m).Ok?) ==> r.Ok?)
  {
    ColumnwiseCells(op, xs, Column(ys), line, m, 0);
    if |xs| > |ys| {
      FailingCellFails(op, xs, Column(ys), line, m, |ys|);
      assert !Columnwise(op, xs, Column(ys), line, m, 0).Ok?;
    }
    assert forall k | 0 <= k < |xs| && k < |ys| :: Cell(op, xs, Column(ys), line, m, k) == Arithmetic(op, xs[k], ys[k], line, m);
  }

  /** Column with anything else broadcasts that operand to every cell. */
  lemma ColumnByScalar(op: Arith, xs: seq<Object>, b: Object, line: nat, m: DecimalMath)
    requires !b.Column?
    ensures var r := Arithmetic(op, Column(xs), b, line, m);
      (r.Ok? <==> forall k | 0 <= k < |xs| :: Arithmetic(op, xs[k], b, line, m).Ok?)
      && (r.Ok? ==>
            r.value.Column? && |r.value.cells| == |xs|
            && forall k | 0 <= k < |xs| :: Ok(r.value.cells[k]) == Arithmetic(op, xs[k], b, line, m))
  {
    ColumnwiseCells(op, xs, b, line, m, 0);
    forall k | 0 <= k < |xs| ensures Cell(op, xs, b, line, m, k) == Arithmetic(op, xs[k], b, line, m) {
    }
    if forall k | 0 <= k < |xs| :: Arithmetic(op, xs[k], b, line, m).Ok? {
      assert forall k | 0 <= k < |xs| :: Cell(op, xs, b, line, m, k).Ok?;
    } else {
      var j :| 0 <= j < |xs| && !Arithmetic(op, xs[j], b, line, m).Ok?;
      CellOfSuccess(op, xs, b, line, m, 0, j);
    }
  }

  /** The first failing cell decides the failure of the whole Column operation. */
  lemma {:induction false} ColumnwiseFirstFailure(op: Arith, xs: seq<Object>, b: Object, line: nat, m: DecimalMath, i: nat, j: nat)
    requires i <= j < |xs|
    requires forall k | i <= k < j :: Cell(op, xs, b, line, m, k).Ok?
    requires !Cell(op, xs, b, line, m, j).Ok?
    ensures Columnwise(op, xs, b, line, m, i) == Cell(op, xs, b, line, m, j).PropagateFailure()
    decreases j - i
  {
    if i < j {
      ColumnwiseFirstFailure(op, xs, b, line, m, i + 1, j);
    }
  }

  predicate Numeric(o: Object) { o.Int? || o.Decimal? || o.Uncertain? }

  /** Addition of numbers does not depend on the order of its operands. */
  lemma AddCommutes(a: Object, b: Object, line: nat, m: DecimalMath)
    requires Numeric(a) && Numeric(b)
    ensures Arithmetic(Add, a, b, line, m) == Arithmetic(Add, b, a, line, m)
  {
  }

  /** Uncertainties add under both `+` and `-`; a plain number keeps the uncertainty. */
  lemma UncertaintiesAdd(v1: real, u1: real, v2: real, u2: real, y: Object, line: nat, m: DecimalMath)
    requires IsNumber(y)
    ensures Arithmetic(Add, Uncertain(v1, u1), Uncertain(v2, u2), line, m) == Ok(Uncertain(v1 + v2, u1 + u2))
    ensures Arithmetic(Subtract, Uncertain(v1, u1), Uncertain(v2, u2), line, m) == Ok(Uncertain(v1 - v2, u1 + u2))
    ensures Arithmetic(Add, Uncertain(v1, u1), y, line, m).value.uncertainty == u1
    ensures Arithmetic(Subtract, Uncertain(v1, u1), y, line, m).value.uncertainty == u1
    ensures Arithmetic(Add, y, Uncertain(v1, u1), line, m).value.uncertainty == u1
  {
  }

  /**
   * Subtracting what was added gives the value back, but the uncertainty of the
   * round trip is the original plus twice the added one.
   */
  lemma AddThenSubtract(a: Object, b: Object, line: nat, m: DecimalMath)
    requires a.Int? && b.Int? && InI128(a.i + b.i)
    ensures Arithmetic(Add, a, b, line, m).Ok?
    ensures Arithmetic(Subtract, Arithmetic(Add, a, b, line, m).value, b, line, m) == Ok(a)
  {
  }

  lemma AddThenSubtractUncertain(v1: real, u1: real, v2: real, u2: real, line: nat, m: DecimalMath)
    ensures var s := Arithmetic(Add, Uncertain(v1, u1), Uncertain(v2, u2), line, m).value;
      Arithmetic(Subtract, s, Uncertain(v2, u2), line, m) == Ok(Uncertain(v1, u1 + 2.0 * u2))
  {
  }

  /** Int arithmetic outside the i128 range halts instead of wrapping. */
  lemma IntOverflowHalts(x: i128, y: i128, line: nat, m: DecimalMath)
    ensures !InI128(x + y) ==> Arithmetic(Add, Object.Int(x), Object.Int(y), line, m).Stop?
    ensures InI128(x + y) ==> Arithmetic(Add, Object.Int(x), Object.Int(y), line, m) == Ok(Object.Int(x + y))
    ensures InI128(x * y) ==> Arithmetic(Multiply, Object.Int(x), Object.Int(y), line, m) == Ok(Object.Int(x * y))
    ensures y == 0 ==> Arithmetic(Divide, Object.Int(x), Object.Int(y), line, m).Stop?
  {
  }

  /** The examples of the operator tests. */
  lemma TestedExamples(line: nat, m: DecimalMath)
    ensures Arithmetic(Add, Object.Int(4), Object.Int(5), line, m) == Ok(Object.Int(9))
    ensures Arithmetic(Add, Object.Int(4), Decimal(5.1), line, m) == Ok(Decimal(9.1))
    ensures Arithmetic(Add, Decimal(4.2), Object.Int(5), line, m) == Ok(Decimal(9.2))
    ensures Arithmetic(Add, Decimal(4.3), Decimal(5.2), line, m) == Ok(Decimal(9.5))
    ensures Arithmetic(Add, Object.String("Hello "), Object.String("World"), line, m) == Ok(Object.String("Hello World"))
    ensures Arithmetic(Add, Uncertain(1.0, 0.1), Object.Int(3), line, m) == Ok(Uncertain(4.0, 0.1))
    ensures Arithmetic(Multiply, Object.Int(4), Object.Int(5), line, m) == Ok(Object.Int(20))
    ensures Arithmetic(Multiply, Object.Int(4), Decimal(5.1), line, m) == Ok(Decimal(20.4))
    ensures Arithmetic(Multiply, Decimal(1.5), Object.Int(2), line, m) == Ok(Decimal(3.0))
    ensures Arithmetic(Multiply, Decimal(1.5), Decimal(1.5), line, m) == Ok(Decimal(2.25))
    ensures Arithmetic(Multiply, Uncertain(6.8, 0.2), Uncertain(3.75, 0.05), line, m) == Ok(Uncertain(25.5, 1.09))
  {
    AddExamples(line, m);
    MultiplyExamples(line, m);
  }

  lemma AddExamples(line: nat, m: DecimalMath)
    ensures Arithmetic(Add, Object.Int(4), Object.Int(5), line, m) == Ok(Object.Int(9))
    ensures Arithmetic(Add, Object.Int(4), Decimal(5.1), line, m) == Ok(Decimal(9.1))
    ensures Arithmetic(Add, Decimal(4.2), Object.Int(5), line, m) == Ok(Decimal(9.2))
    ensures Arithmetic(Add, Object.String("Hello "), Object.String("World"), line, m) == Ok(Object.String("Hello World"))
    ensures Arithmetic(Add, Uncertain(1.0, 0.1), Object.Int(3), line, m) == Ok(Uncertain(4.0, 0.1))
  {
    assert "Hello " + "World" == "Hello World";
    assert ToI64(4) == 4 && ToI64(5) == 5;
  }

  lemma MultiplyExamples(line: nat, m: DecimalMath)
    ensures Arithmetic(Multiply, Object.Int(4), Object.Int(5), line, m) == Ok(Object.Int(20))
    ensures Arithmetic(Multiply, Decimal(1.5), Decimal(1.5), line, m) == Ok(Decimal(2.25))
    ensures Arithmetic(Multiply, Uncertain(6.8, 0.2), Uncertain(3.75, 0.05), line, m) == Ok(Uncertain(25.5, 1.09))
  {
    assert ToI64(4) == 4 && ToI64(5) == 5 && ToI64(2) == 2;
  }

  /**
   * Multiplying two uncertain values adds the relative uncertainties: the
   * product's uncertainty is y*u1 + x*u2 whenever neither value is zero.
   */
  lemma ProductUncertainty(x: real, u1: real, y: real, u2: real, line: nat, m: DecimalMath)
    requires x != 0.0 && y != 0.0
    ensures Arithmetic(Multiply, Uncertain(x, u1), Uncertain(y, u2), line, m) == Ok(Uncertain(x * y, y * u1 + x * u2))
  {
    var r := Arithmetic(Multiply, Uncertain(x, u1), Uncertain(y, u2), line, m);
    assert r.Ok? && r.value.Uncertain?;
    assert r.value.value == x * y;
    assert r.value.uncertainty == x * y * (u1 / x + u2 / y);
    var q1 := u1 / x;
    var q2 := u2 / y;
    assert q1 * x == u1;
    assert q2 * y == u2;
    calc {
      x * y * (q1 + q2);
      (q1 * x) * y + (q2 * y) * x;
      u1 * y + u2 * x;
      y * u1 + x * u2;
    }
    assert r.value == Uncertain(x * y, y * u1 + x * u2);
  }

  /** Int division truncates toward zero, unlike Dafny's own `/`. */
  lemma IntDivisionTruncates(line: nat, m: DecimalMath)
    ensures Arithmetic(Divide, Object.Int(7), Object.Int(2), line, m) == Ok(Object.Int(3))
    ensures Arithmetic(Divide, Object.Int(-7), Object.Int(2), line, m) == Ok(Object.Int(-3))
    ensures Arithmetic(Divide, Object.Int(7), Object.Int(-2), line, m) == Ok(Object.Int(-3))
  {
  }

  /** A left operand of an unsupported variant is an error for every operator. */
  lemma UnsupportedLeftOperand(op: Arith, a: Object, b: Object, line: nat, m: DecimalMath)
    requires !Numeric(a) && !a.Column? && !a.String?
    ensures Arithmetic(op, a, b, line, m).Err?
  {
    match op
    case Add =>
    case Subtract =>
    case Multiply =>
    case Divide =>
    case Exponent =>
    case MakeUncertain =>
  }

  /** `make_uncertain` pairs two numbers and rejects anything else. */
  lemma MakeUncertainPairs(a: Object, b: Object, line: nat, m: DecimalMath)
    requires !a.Column?
    ensures var r := Arithmetic(MakeUncertain, a, b, line, m);
      (r.Ok? <==> IsNumber(a) && IsNumber(b))
      && (r.Ok? ==>
            r.value.Uncertain?
            && r.value.value == (if a.Int? then IntToDecimal(a.i) else a.d)
            && r.value.uncertainty == (if b.Int? then IntToDecimal(b.i) else b.d))
      && (!r.Ok? ==> r.Err?)
  {
    if IsNumber(a) && IsNumber(b) {
      MakeUncertainNumbers(a, b, line, m);
    } else {
      MakeUncertainRejects(a, b, line, m);
    }
  }

  lemma MakeUncertainNumbers(a: Object, b: Object, line: nat, m: DecimalMath)
    requires IsNumber(a) && IsNumber(b)
    ensures Arithmetic(MakeUncertain, a, b, line, m) ==
      Ok(Uncertain(if a.Int? then IntToDecimal(a.i) else a.d, if b.Int? then IntToDecimal(b.i) else b.d))
  {
    assert Arithmetic(MakeUncertain, a, b, line, m) == MakeUncertainScalar(a, b, line);
  }

  lemma MakeUncertainRejects(a: Object, b: Object, line: nat, m: DecimalMath)
    requires !a.Column? && !(IsNumber(a) && IsNumber(b))
    ensures Arithmetic(MakeUncertain, a, b, line, m).Err?
  {
    assert Arithmetic(MakeUncertain, a, b, line, m) == MakeUncertainScalar(a, b, line);
  }

  /** Comparisons answer a Boolean exactly when both operands are Int or Decimal. */
  lemma ComparisonsOnNumbersOnly(c: Comparison, a: Object, b: Object, line: nat)
    ensures var r := Compare(c, a, b, line);
      (r.Ok? <==> IsNumber(a) && IsNumber(b)) && (r.Ok? ==> r.value.Boolean?) && (!r.Ok? ==> r.Err?)
  {
  }

  /** `<` is the negation of `>=`, `!=` of `==`, and swapping operands mirrors `>` into `<`. */
  lemma ComparisonDuality(a: Object, b: Object, line: nat)
    requires IsNumber(a) && IsNumber(b)
    ensures Compare(Comparison.LessThan, a, b, line).value.b == !Compare(Comparison.GreaterThanEqual, a, b, line).value.b
    ensures Compare(Comparison.LessThanEqual, a, b, line).value.b == !Compare(Comparison.GreaterThan, a, b, line).value.b
    ensures Compare(Comparison.NotEqual, a, b, line).value.b == !Compare(Comparison.EqualEqual, a, b, line).value.b
    ensures Compare(Comparison.GreaterThan, a, b, line) == Compare(Comparison.LessThan, b, a, line)
    ensures Compare(Comparison.EqualEqual, a, b, line) == Compare(Comparison.EqualEqual, b, a, line)
  {
  }

  /** `and`, `or` and `not` are Boolean connectives on Booleans and errors elsewhere. */
  lemma LogicOnBooleansOnly(op: Logic, a: Object, b: Object, line: nat)
    ensures var r := Connect(op, a, b, line);
      (r.Ok? <==> a.Boolean? && b.Boolean?)
      && (r.Ok? ==> r.value == Boolean(if op == Logic.And then a.b && b.b else a.b || b.b))
      && (!r.Ok? ==> r.Err?)
    ensures LogicalNot(a, line).Ok? <==> a.Boolean?
    ensures a.Boolean? && b.Boolean? ==>
      LogicalNot(Connect(Logic.And, a, b, line).value, line) ==
      Connect(Logic.Or, LogicalNot(a, line).value, LogicalNot(b, line).value, line)
  {
  }

  /** Objects that `negate` maps to a value without overflow. */
  predicate Negatable(o: Object)
  {
    match o
    case Int(x) => x != I128_MIN
    case Decimal(_) => true
    case Column(xs) => forall k | 0 <= k < |xs| :: Negatable(xs[k])
    case _ => false
  }

  /** Negation succeeds exactly on negatable objects, and fails with an error or an overflow panic elsewhere. */
  lemma {:induction false} NegateSucceeds(o: Object, line: nat)
    ensures Negate(o, line).Ok? <==> Negatable(o)
    decreases o
  {
    match o
    case Column(xs) =>
      NegateCells(xs, line, 0);
      forall k | 0 <= k < |xs| ensures Negate(xs[k], line).Ok? <==> Negatable(xs[k]) {
        NegateSucceeds(xs[k], line);
      }
    case _ =>
  }

  /** Applying negation twice to a negatable object gives the object back. */
  lemma {:induction false} NegateInvolution(o: Object, line: nat)
    requires Negatable(o)
    ensures Negate(o, line).Ok? && Negate(Negate(o, line).value, line) == Ok(o)
    decreases o, 1
  {
    NegateSucceeds(o, line);
    if o.Column? {
      NegateColumnTwice(o.cells, line);
    }
  }

  /** The Column case of `NegateInvolution`: each cell is negated back. */
  lemma {:induction false} NegateColumnTwice(xs: seq<Object>, line: nat)
    requires Negatable(Column(xs))
    ensures Negate(Column(xs), line).Ok? && Negate(Negate(Column(xs), line).value, line) == Ok(Column(xs))
    decreases Column(xs), 0
  {
    NegateSucceeds(Column(xs), line);
    NegateCells(xs, line, 0);
    var n := NegateFrom(xs, line, 0).value;
    forall k | 0 <= k < |xs| ensures Negate(n[k], line) == Ok(xs[k]) {
      NegateInvolution(xs[k], line);
    }
    NegateCells(n, line, 0);
    assert NegateFrom(n, line, 0).value == xs;
  }

  /** Negating cells from `i` on succeeds exactly when every cell does, cell by cell. */
  lemma {:induction false} NegateCells(xs: seq<Object>, line: nat, i: nat)
    requires i <= |xs|
    ensures var r := NegateFrom(xs, line, i);
      (r.Ok? <==> forall k | i <= k < |xs| :: Negate(xs[k], line).Ok?)
      && (r.Ok? ==> |r.value| == |xs| - i && forall k | 0 <= k < |r.value| :: Ok(r.value[k]) == Negate(xs[i + k], line))
    decreases |xs| - i
  {
    if i < |xs| {
      NegateCells(xs, line, i + 1);
      var r := NegateFrom(xs, line, i);
      if r.Ok? {
        var rest := NegateFrom(xs, line, i + 1);
        forall k | 0 <= k < |r.value| ensures Ok(r.value[k]) == Negate(xs[i + k], line) {
          if k > 0 {
            assert r.value[k] == rest.value[k - 1];
          }
        }
      }
    }
  }
}
