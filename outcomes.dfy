/**
 * Outcomes of the Rust code paths: an `Ok` value, a recoverable error that the
 * interpreter reports (the `Err((String, usize))` of the source), or a halt that
 * ends the whole program without an error report (a Rust panic, a parser that
 * makes no progress, or a left-out path of the model).
 */
module Outcomes {

  datatype Option<T> = None | Some(value: T)

  /** The `(message, line)` pair every fallible Hawk function returns as its error. */
  datatype Error = Error(message: string, line: nat)

  datatype Halt =
    | Panicked(reason: string)   // a Rust panic: overflow, index out of bounds, division by zero
    | Diverges                   // the source loops forever (the parser making no progress)
    | OutOfFuel                  // the model's bound on nested calls and loop iterations ran out
    | Unmodelled(what: string)   // a path whose floating-point behaviour this model leaves out

  datatype Result<T> = Ok(value: T) | Err(error: Error) | Stop(halt: Halt)
  {
    predicate IsFailure() { !Ok? }

    /** The same failure, carried into a result of another type. */
    function PropagateFailure<U>(): (r: Result<U>)
      requires IsFailure()
      ensures r.Err? == Err? && r.Stop? == Stop?
      ensures Err? ==> r.error == error
      ensures Stop? ==> r.halt == halt
    {
      if Err? then Err(error) else Stop(halt)
    }

    function Extract(): T
      requires Ok?
    {
      value
    }
  }

  function Fail<T>(message: string, line: nat): (r: Result<T>)
    ensures r.Err? && r.error.message == message && r.error.line == line
  {
    Err(Error(message, line))
  }

  /** The panic of an index past the end of a `Vec`. */
  const OUT_OF_BOUNDS := "index out of bounds"

  function Panic<T>(reason: string): (r: Result<T>)
    ensures r.Stop? && r.halt == Panicked(reason)
  {
    Stop(Panicked(reason))
  }

  /** Bounds of Rust's `i128`, `i64` and (on the 32-bit wasm target) `usize`. */
  const I128_MIN: int := -0x8000_0000_0000_0000_0000_0000_0000_0000
  const I128_LIMIT: int := 0x8000_0000_0000_0000_0000_0000_0000_0000
  const I64_LIMIT: int := 0x8000_0000_0000_0000
  const USIZE_LIMIT: int := 0x1_0000_0000

  type i128 = x: int | I128_MIN <= x < I128_LIMIT

  predicate InI128(x: int) { I128_MIN <= x < I128_LIMIT }

  /** `x as i64`: keeps the low 64 bits and reads them as two's complement. */
  function ToI64(x: int): (r: int)
    ensures -I64_LIMIT <= r < I64_LIMIT
    ensures (r - x) % (2 * I64_LIMIT) == 0
    ensures -I64_LIMIT <= x < I64_LIMIT ==> r == x
  {
    var m := x % (2 * I64_LIMIT);
    if m >= I64_LIMIT then m - 2 * I64_LIMIT else m
  }

  /** `x as usize` for an `i128` x on the 32-bit target: keeps the low 32 bits. */
  function ToUsize(x: int): (r: nat)
    ensures r < USIZE_LIMIT
    ensures (r - x) % USIZE_LIMIT == 0
    ensures 0 <= x < USIZE_LIMIT ==> r == x
  {
    x % USIZE_LIMIT
  }

  /** Rust's `/` on integers, which truncates toward zero. */
  function TruncDiv(x: int, y: int): (q: int)
    requires y != 0
    ensures x >= 0 && y > 0 ==> q == x / y
    ensures (x >= 0) == (y > 0) ==> q >= 0
    ensures (x >= 0) != (y > 0) ==> q <= 0
  {
    var a := (if x >= 0 then x else -x) / (if y > 0 then y else -y);
    if (x >= 0) == (y > 0) then a else -a
  }

  /** Decimal rendering of an integer, as Rust's `to_string` prints it. */
  function NatToString(n: nat): (s: string)
    ensures |s| > 0
    ensures forall i :: 0 <= i < |s| ==> '0' <= s[i] <= '9'
    decreases n
  {
    if n < 10 then [Digit(n)] else NatToString(n / 10) + [Digit(n % 10)]
  }

  function Digit(d: nat): (c: char)
    requires d < 10
    ensures '0' <= c <= '9' && c as int - '0' as int == d
  {
    ('0' as int + d) as char
  }

  function IntToString(x: int): (s: string)
    ensures |s| > 0
    ensures x >= 0 ==> s == NatToString(x)
    ensures x < 0 ==> s == "-" + NatToString(-x)
  {
    if x >= 0 then NatToString(x) else "-" + NatToString(-x)
  }

  /** Value of a run of ASCII digits, most significant first. */
  function DigitsValue(ds: string): nat
    requires forall i :: 0 <= i < |ds| ==> '0' <= ds[i] <= '9'
  {
    if |ds| == 0 then 0
    else DigitsValue(ds[..|ds| - 1]) * 10 + (ds[|ds| - 1] as int - '0' as int)
  }

  lemma {:induction false} DigitsOfNatToString(n: nat)
    ensures DigitsValue(NatToString(n)) == n
    decreases n
  {
    if n >= 10 {
      var s := NatToString(n / 10);
      assert NatToString(n) == s + [Digit(n % 10)];
      assert NatToString(n)[..|NatToString(n)| - 1] == s;
      DigitsOfNatToString(n / 10);
    }
  }
}
