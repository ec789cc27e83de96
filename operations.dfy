/**
 * The type-dispatched operators of the interpreter. Each works on two evaluated
 * operands and the current line, and either produces a value or reports an
 * error at that line. A Column on the left distributes the operator over its
 * cells: element-wise against another Column, or against the same right operand
 * for every cell. `Decimal` arithmetic is exact here. Int arithmetic is kept
 * in the i128 range and an overflow halts, as the plain operators do in a
 * build with overflow checks on; a release build would wrap instead.
 */
module Operations {
  import opened Outcomes
  import opened Common

  datatype Arith = Add | Subtract | Multiply | Divide | Exponent | MakeUncertain
  datatype Comparison = GreaterThanEqual | GreaterThan | LessThanEqual | LessThan | NotEqual | EqualEqual
  datatype Logic = And | Or

  /** Power functions of the decimal library, which this model takes as given. */
  datatype DecimalMath = DecimalMath(powd: (real, real) -> real, powi: (real, int) -> real)

  /**
   * Stand-in for an operand's `user_print` inside an error message: the name of
   * its variant.
   */
  function Render(o: Object): string
  {
    match o
    case Null => "Null"
    case Int(_) => "Int"
    case Float(_) => "Float"
    case String(_) => "String"
    case Boolean(_) => "Boolean"
    case Uncertain(_, _) => "Uncertain"
    case Function(_, _) => "Function"
    case Finder(_) => "Finder"
    case Array(_) => "Array"
    case Identifier(_) => "Identifier"
    case Column(_) => "Column"
    case DataTable(_, _) => "DataTable"
    case Decimal(_) => "Decimal"
  }

  /** An i128 result, or the panic of the overflowing operation. */
  function CheckedInt(x: int, what: string): (r: Result<Object>)
    ensures InI128(x) ==> r == Ok(Object.Int(x))
    ensures !InI128(x) ==> r.Stop?
  {
    if InI128(x) then Ok(Object.Int(x)) else Panic("attempt to " + what + " with overflow")
  }

  /** Decimal division, which panics on a zero divisor. */
  function Quotient(x: real, y: real): (r: Result<real>)
    ensures y != 0.0 ==> r == Ok(x / y)
    ensures y == 0.0 ==> r.Stop?
  {
    if y == 0.0 then Panic("Division by zero") else Ok(x / y)
  }

  function ThenUncertain(value: Result<real>, uncertainty: Result<real>): Result<Object>
  {
    if !value.Ok? then value.PropagateFailure()
    else if !uncertainty.Ok? then uncertainty.PropagateFailure()
    else Ok(Uncertain(value.value, uncertainty.value))
  }

  function ThenDecimal(d: Result<real>): Result<Object>
  {
    if d.Ok? then Ok(Decimal(d.value)) else d.PropagateFailure()
  }

  /** `i128::pow`. */
  function Pow(x: int, e: nat): int
    decreases e
  {
    if e == 0 then 1 else x * Pow(x, e - 1)
  }

  /** `add` for a left operand that is not a Column. */
  function AddScalar(a: Object, b: Object, line: nat): Result<Object>
  {
    match a
    case Int(x) => (
      match b
      case Int(y) => CheckedInt(x + y, "add")
      case Decimal(y) => Ok(Decimal(IntToDecimal(x) + y))
      case Uncertain(y, u) => Ok(Uncertain(IntToDecimal(x) + y, u))
      case _ => Fail("Can't add Int to " + Render(b), line))
    case Decimal(x) => (
      match b
      case Int(y) => Ok(Decimal(x + IntToDecimal(y)))
      case Decimal(y) => Ok(Decimal(x + y))
      case Uncertain(y, u) => Ok(Uncertain(x + y, u))
      case _ => Fail("Can't add Decimal to " + Render(b), line))
    case Uncertain(x, u1) => (
      match b
      case Int(y) => Ok(Uncertain(x + IntToDecimal(y), u1))
      case Decimal(y) => Ok(Uncertain(x + y, u1))
      case Uncertain(y, u2) => Ok(Uncertain(x + y, u1 + u2))
      case _ => Fail("Can't add Uncertain to " + Render(b), line))
    case String(x) => (
      match b
      case String(y) => Ok(Object.String(x + y))
      case _ => Fail("Can't add String to " + Render(b), line))
    case _ => Fail("Can't add " + Render(a), line)
  }

  /** `subtract` for a left operand that is not a Column. */
  function SubtractScalar(a: Object, b: Object, line: nat): Result<Object>
  {
    match a
    case Int(x) => (
      match b
      case Int(y) => CheckedInt(x - y, "subtract")
      case Decimal(y) => Ok(Decimal(IntToDecimal(x) - y))
      case Uncertain(y, u) => Ok(Uncertain(IntToDecimal(x) - y, u))
      case _ => Fail("Can't subtract " + Render(b) + " from Int", line))
    case Decimal(x) => (
      match b
      case Int(y) => Ok(Decimal(x - IntToDecimal(y)))
      case Decimal(y) => Ok(Decimal(x - y))
      case Uncertain(y, u) => Ok(Uncertain(x - y, u))
      case _ => Fail("Can't subtract " + Render(b) + " from Decimal", line))
    case Uncertain(x, u1) => (
      match b
      case Int(y) => Ok(Uncertain(x - IntToDecimal(y), u1))
      case Decimal(y) => Ok(Uncertain(x - y, u1))
      case Uncertain(y, u2) => Ok(Uncertain(x - y, u1 + u2))
      case _ => Fail("Can't subtract " + Render(b) + " from Uncertain", line))
    case _ => Fail("Can't subtract " + Render(a), line)
  }

  /** `multiply` for a left operand that is not a Column. */
  function MultiplyScalar(a: Object, b: Object, line: nat): Result<Object>
  {
    match a
    case Int(x) => (
      match b
      case Int(y) => CheckedInt(x * y, "multiply")
      case Decimal(y) => Ok(Decimal(IntToDecimal(x) * y))
      case Uncertain(v, u) => Ok(Uncertain(v * IntToDecimal(x), u * IntToDecimal(x)))
      case _ => Fail("Can't multiply Int by " + Render(b), line))
    case Decimal(x) => (
      match b
      case Int(y) => Ok(Decimal(x * IntToDecimal(y)))
      case Decimal(y) => Ok(Decimal(x * y))
      case Uncertain(v, u) => Ok(Uncertain(v * x, u * x))
      case _ => Fail("Can't multiply Decimal by " + Render(b), line))
    case Uncertain(x, u1) => (
      match b
      case Int(y) => Ok(Uncertain(x * IntToDecimal(y), u1 * IntToDecimal(y)))
      case Decimal(y) => Ok(Uncertain(x * y, u1 * y))
      case Uncertain(y, u2) =>
        var r1 := Quotient(u1, x);
        var r2 := Quotient(u2, y);
        if !r1.Ok? then r1.PropagateFailure()
        else if !r2.Ok? then r2.PropagateFailure()
        else Ok(Uncertain(x * y, x * y * (r1.value + r2.value)))
      case _ => Fail("Can't multiply Uncertain by " + Render(b), line))
    case _ => Fail("Can't multiply " + Render(a), line)
  }

  /** `divide` for a left operand that is not a Column; Int division truncates toward zero. */
  function DivideScalar(a: Object, b: Object, line: nat): Result<Object>
  {
    match a
    case Int(x) => (
      match b
      case Int(y) =>
        if y == 0 then Panic("attempt to divide by zero")
        else CheckedInt(TruncDiv(x, y), "divide")
      case Decimal(y) => ThenDecimal(Quotient(IntToDecimal(x), y))
      case Uncertain(y, u) =>
        ThenUncertain(Quotient(IntToDecimal(x), y), Quotient(IntToDecimal(x) * u, y * y))
      case _ => Fail("Can't divide Int by " + Render(b), line))
    case Decimal(x) => (
      match b
      case Int(y) => ThenDecimal(Quotient(x, IntToDecimal(y)))
      case Decimal(y) => ThenDecimal(Quotient(x, y))
      case Uncertain(y, u) => ThenUncertain(Quotient(x, y), Quotient(x * u, y * y))
      case _ => Fail("Can't divide Decimal by " + Render(b), line))
    case Uncertain(x, u1) => (
      match b
      case Int(y) => ThenUncertain(Quotient(x, IntToDecimal(y)), Quotient(u1, IntToDecimal(y)))
      case Decimal(y) => ThenUncertain(Quotient(x, y), Quotient(u1, y))
      case Uncertain(y, u2) =>
        var q := Quotient(x, y);
        var r1 := Quotient(u1, x);
        var r2 := Quotient(u2, y);
        if !q.Ok? then q.PropagateFailure()
        else if !r1.Ok? then r1.PropagateFailure()
        else if !r2.Ok? then r2.PropagateFailure()
        else Ok(Uncertain(q.value, q.value * (r1.value + r2.value)))
      case _ => Fail("Can't divide Uncertain by " + Render(b), line))
    case _ => Fail("Can't divide " + Render(a), line)
  }

  /** `exponent` for a left operand that is not a Column; `y as u32` keeps the low 32 bits. */
  function ExponentScalar(a: Object, b: Object, line: nat, m: DecimalMath): Result<Object>
  {
    match a
    case Int(x) => (
      match b
      case Int(y) => CheckedInt(Pow(x, y % 0x1_0000_0000), "multiply")
      case Decimal(y) => Ok(Decimal(m.powd(IntToDecimal(x), y)))
      case _ => Fail("Can't raise Int to " + Render(b), line))
    case Decimal(x) => (
      match b
      case Int(y) => Ok(Decimal(m.powi(x, ToI64(y))))
      case Decimal(y) => Ok(Decimal(m.powd(x, y)))
      case _ => Fail("Can't raise Decimal to " + Render(b), line))
    case Uncertain(x, u1) => (
      match b
      case Int(y) =>
        var p := m.powd(x, IntToDecimal(y));
        ThenUncertain(Ok(p), ThenScale(Quotient(u1, x), p * IntToDecimal(y)))
      case Decimal(y) =>
        var p := m.powd(x, y);
        ThenUncertain(Ok(p), ThenScale(Quotient(u1, x), p * y))
      case _ => Fail("Can't raise Uncertain to " + Render(b), line))
    case _ => Fail("Can't exponentiate " + Render(a), line)
  }

  function ThenScale(r: Result<real>, k: real): Result<real>
  {
    if r.Ok? then Ok(k * r.value) else r
  }

  /** `make_uncertain` for a left operand that is not a Column. */
  function MakeUncertainScalar(a: Object, b: Object, line: nat): Result<Object>
  {
    match a
    case Int(x) => (
      match b
      case Int(y) => Ok(Uncertain(IntToDecimal(x), IntToDecimal(y)))
      case Decimal(y) => Ok(Uncertain(IntToDecimal(x), y))
      case _ => Fail("Can't add " + Render(b) + " as uncertainty", line))
    case Decimal(x) => (
      match b
      case Int(y) => Ok(Uncertain(x, IntToDecimal(y)))
      case Decimal(y) => Ok(Uncertain(x, y))
      case _ => Fail("Can't add " + Render(b) + " as uncertainty", line))
    case _ => Fail("Can't add uncertainty to " + Render(a), line)
  }

  function Scalar(op: Arith, a: Object, b: Object, line: nat, m: DecimalMath): Result<Object>
  {
    match op
    case Add => AddScalar(a, b, line)
    case Subtract => SubtractScalar(a, b, line)
    case Multiply => MultiplyScalar(a, b, line)
    case Divide => DivideScalar(a, b, line)
    case Exponent => ExponentScalar(a, b, line, m)
    case MakeUncertain => MakeUncertainScalar(a, b, line)
  }

  /**
   * `add`, `subtract`, `multiply`, `divide`, `exponent` and `make_uncertain`:
   * a Column on the left is handled cell by cell, anything else by the scalar arms.
   */
  function Arithmetic(op: Arith, a: Object, b: Object, line: nat, m: DecimalMath): Result<Object>
    decreases a, 1
  {
    match a
    case Column(xs) =>
      var r := Columnwise(op, xs, b, line, m, 0);
      if r.Ok? then Ok(Column(r.value)) else r.PropagateFailure()
    case _ => Scalar(op, a, b, line, m)
  }

  /** The right operand paired with cell `i`: the i-th cell of a Column, else the operand itself. */
  function Partner(b: Object, i: nat): Result<Object>
  {
    if !b.Column? then Ok(b)
    else if i < |b.cells| then Ok(b.cells[i])
    else Panic("index out of bounds")
  }

  /** Cell `k` of a Column operation: cell `k` of the left operand combined with its partner. */
  function Cell(op: Arith, xs: seq<Object>, b: Object, line: nat, m: DecimalMath, k: nat): Result<Object>
    requires k < |xs|
    decreases xs, 0
  {
    var p := Partner(b, k);
    if p.Ok? then Arithmetic(op, xs[k], p.value, line, m) else p
  }

  /** The cells from `i` on, each combined with its partner, stopping at the first failure. */
  function Columnwise(op: Arith, xs: seq<Object>, b: Object, line: nat, m: DecimalMath, i: nat): Result<seq<Object>>
    requires i <= |xs|
    decreases xs, |xs| - i + 1
  {
    if i == |xs| then Ok([])
    else
      var c := Cell(op, xs, b, line, m, i);
      if !c.Ok? then c.PropagateFailure()
      else
        var rest := Columnwise(op, xs, b, line, m, i + 1);
        if rest.Ok? then Ok([c.value] + rest.value) else rest
  }

  /** The six comparisons, defined on Int and Decimal operands only. */
  function Holds(c: Comparison, x: real, y: real): bool
  {
    match c
    case GreaterThanEqual => x >= y
    case GreaterThan => x > y
    case LessThanEqual => x <= y
    case LessThan => x < y
    case NotEqual => x != y
    case EqualEqual => x == y
  }

  function Compare(c: Comparison, a: Object, b: Object, line: nat): Result<Object>
  {
    match a
    case Int(x) => (
      match b
      case Int(y) => Ok(Boolean(Holds(c, x as real, y as real)))
      case Decimal(y) => Ok(Boolean(Holds(c, IntToDecimal(x), y)))
      case _ => Fail("Can't compare Int to " + Render(b), line))
    case Decimal(x) => (
      match b
      case Int(y) => Ok(Boolean(Holds(c, x, IntToDecimal(y))))
      case Decimal(y) => Ok(Boolean(Holds(c, x, y)))
      case _ => Fail("Can't compare Decimal to " + Render(b), line))
    case _ => Fail("Can't compare " + Render(a), line)
  }

  const LogicMessage := "Logical operations can only be performed on booleans, not "

  /** `and` and `or`. */
  function Connect(op: Logic, a: Object, b: Object, line: nat): Result<Object>
  {
    if !a.Boolean? then Fail(LogicMessage + Render(a), line)
    else if !b.Boolean? then Fail(LogicMessage + Render(b), line)
    else if op == Logic.And then Ok(Boolean(a.b && b.b))
    else Ok(Boolean(a.b || b.b))
  }

  /** `not`. */
  function LogicalNot(a: Object, line: nat): Result<Object>
  {
    if a.Boolean? then Ok(Boolean(!a.b)) else Fail(LogicMessage + Render(a), line)
  }

  /** `negate`: numbers change sign, a Column is negated cell by cell. */
  function Negate(a: Object, line: nat): Result<Object>
    decreases a, 1
  {
    match a
    case Int(x) => CheckedInt(-(x as int), "negate")
    case Decimal(x) => Ok(Decimal(-x))
    case Column(xs) =>
      var r := NegateFrom(xs, line, 0);
      if r.Ok? then Ok(Column(r.value)) else r.PropagateFailure()
    case _ => Fail("Expected number, found " + Render(a), line)
  }

  function NegateFrom(xs: seq<Object>, line: nat, i: nat): Result<seq<Object>>
    requires i <= |xs|
    decreases xs, |xs| - i
  {
    if i == |xs| then Ok([])
    else
      var c := Negate(xs[i], line);
      if !c.Ok? then c.PropagateFailure()
      else
        var rest := NegateFrom(xs, line, i + 1);
        if rest.Ok? then Ok([c.value] + rest.value) else rest
  }

  /** `cells` prefixed to a successful rest; a failure passes through unchanged. */
  function Prefixed(cells: seq<Object>, rest: Result<seq<Object>>): Result<seq<Object>>
  {
    if rest.Ok? then Ok(cells + rest.value) else rest
  }

  lemma PrefixedNothing(rest: Result<seq<Object>>)
    ensures Prefixed([], rest) == rest
  {
    if rest.Ok? {
      assert [] + rest.value == rest.value;
    }
  }

  lemma PrefixedThenCell(results: seq<Object>, c: Object, rest: Result<seq<Object>>)
    ensures Prefixed(results, if rest.Ok? then Ok([c] + rest.value) else rest) == Prefixed(results + [c], rest)
  {
    if rest.Ok? {
      assert results + ([c] + rest.value) == results + [c] + rest.value;
    }
  }

  /** The Column arm of the binary operators, as the source's `for` loop over the cells. */
  method ColumnArithmetic(op: Arith, xs: seq<Object>, b: Object, line: nat, m: DecimalMath)
    returns (r: Result<Object>)
    ensures r == Arithmetic(op, Column(xs), b, line, m)
  {
    var results: seq<Object> := [];
    var i := 0;
    PrefixedNothing(Columnwise(op, xs, b, line, m, 0));
    while i < |xs|
      invariant 0 <= i <= |xs|
      invariant Columnwise(op, xs, b, line, m, 0) == Prefixed(results, Columnwise(op, xs, b, line, m, i))
    {
      var p := Partner(b, i);
      if !p.Ok? {
        return p.PropagateFailure();
      }
      var c := Arithmetic(op, xs[i], p.value, line, m);
      assert c == Cell(op, xs, b, line, m, i);
      if !c.Ok? {
        return c.PropagateFailure();
      }
      PrefixedThenCell(results, c.value, Columnwise(op, xs, b, line, m, i + 1));
      results := results + [c.value];
      i := i + 1;
    }
    assert results + [] == results;
    return Ok(Column(results));
  }

  /** The Column arm of `negate`, as the source's `for` loop over the cells. */
  method ColumnNegate(xs: seq<Object>, line: nat) returns (r: Result<Object>)
    ensures r == Negate(Column(xs), line)
  {
    var results: seq<Object> := [];
    var i := 0;
    PrefixedNothing(NegateFrom(xs, line, 0));
    while i < |xs|
      invariant 0 <= i <= |xs|
      invariant NegateFrom(xs, line, 0) == Prefixed(results, NegateFrom(xs, line, i))
    {
      var c := Negate(xs[i], line);
      if !c.Ok? {
        return c.PropagateFailure();
      }
      PrefixedThenCell(results, c.value, NegateFrom(xs, line, i + 1));
      results := results + [c.value];
      i := i + 1;
    }
    assert results + [] == results;
    return Ok(Column(results));
  }
}
