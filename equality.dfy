/**
 * The hand-written `PartialEq` of `Object`. Only the listed variant pairs can be
 * equal; every other pair, Boolean with Boolean included, is unequal. Arrays and
 * columns compare element by element over the shorter of the two.
 */
module Equality {
  import opened Common

  /** `Object::eq`. */
  function Eq(x: Object, y: Object): bool
    decreases x
  {
    match (x, y)
    case (Int(a), Int(b)) => a == b
    case (Float(a), Float(b)) => a == b
    case (Int(a), Float(b)) => a as real == b
    case (Float(b), Int(a)) => a as real == b
    case (Uncertain(v, u), Int(i)) => v + u > i as real && v - u < i as real
    case (Int(i), Uncertain(v, u)) => v + u > i as real && v - u < i as real
    case (String(a), String(b)) => a == b
    case (Uncertain(v1, u1), Uncertain(v2, u2)) => v1 + u1 > v2 - u2 && v2 + u2 > v1 - u1
    case (Array(a), Array(b)) => forall i | 0 <= i < |a| && i < |b| :: Eq(a[i], b[i])
    case (Column(a), Column(b)) => forall i | 0 <= i < |a| && i < |b| :: Eq(a[i], b[i])
    case (Null, Null) => true
    case _ => false
  }

  /** Equality of the zipped prefix of two vectors, the value `compare_vec_obj` computes. */
  predicate ZipEqual(a: seq<Object>, b: seq<Object>)
  {
    forall i | 0 <= i < |a| && i < |b| :: Eq(a[i], b[i])
  }

  /** `compare_vec_obj`: walks the zip of both vectors, clearing the flag on a mismatch. */
  method CompareVecObj(a: seq<Object>, b: seq<Object>) returns (x: bool)
    ensures x == ZipEqual(a, b)
    ensures x == Eq(Object.Array(a), Object.Array(b)) && x == Eq(Column(a), Column(b))
  {
    x := true;
    var i := 0;
    while i < |a| && i < |b|
      invariant 0 <= i <= |a| && i <= |b|
      invariant x == (forall k | 0 <= k < i :: Eq(a[k], b[k]))
    {
      if !Eq(a[i], b[i]) {
        x := false;
      }
      i := i + 1;
    }
  }

  /** The comparison is symmetric: swapping the operands never changes the answer. */
  lemma {:induction false} EqSymmetric(x: Object, y: Object)
    ensures Eq(x, y) == Eq(y, x)
    decreases x
  {
    match (x, y)
    case (Array(a), Array(b)) =>
      forall i | 0 <= i < |a| && i < |b| ensures Eq(a[i], b[i]) == Eq(b[i], a[i]) {
        EqSymmetric(a[i], b[i]);
      }
    case (Column(a), Column(b)) =>
      forall i | 0 <= i < |a| && i < |b| ensures Eq(a[i], b[i]) == Eq(b[i], a[i]) {
        EqSymmetric(a[i], b[i]);
      }
    case _ =>
  }

  /** Two Booleans are never equal, not even a Boolean and itself. */
  lemma BooleanNeverEqual(b: bool, c: bool)
    ensures !Eq(Boolean(b), Boolean(c))
  {
  }

  /** An Array and a Column are never equal, whatever their elements. */
  lemma ArrayNeverEqualsColumn(a: seq<Object>, b: seq<Object>)
    ensures !Eq(Object.Array(a), Column(b)) && !Eq(Column(b), Object.Array(a))
  {
  }

  /** Int, String and Null values are equal exactly when their payloads are. */
  lemma PayloadEquality(x: Object, y: Object)
    requires (x.Int? && y.Int?) || (x.String? && y.String?) || (x.Null? && y.Null?)
    ensures Eq(x, y) <==> x == y
  {
  }

  /**
   * Elements past the shorter operand never matter: once `a` equals `b` with
   * `a` no longer than `b`, it equals every extension of `b` as well.
   */
  lemma {:induction false} ExtensionStaysEqual(a: seq<Object>, b: seq<Object>, extra: seq<Object>)
    requires |a| <= |b| && Eq(Object.Array(a), Object.Array(b))
    ensures Eq(Object.Array(a), Object.Array(b + extra))
  {
    var bx := b + extra;
    forall i | 0 <= i < |a| && i < |bx| ensures Eq(a[i], bx[i]) {
      assert bx[i] == b[i];
    }
  }

  /** `[1, 2]` compares equal to `[1, 2, 3]`, and `[]` to every array. */
  lemma PrefixExample()
    ensures Eq(Object.Array([Object.Int(1), Object.Int(2)]), Object.Array([Object.Int(1), Object.Int(2), Object.Int(3)]))
    ensures forall b :: Eq(Object.Array([]), Object.Array(b))
  {
  }
}
