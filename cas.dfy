/**
 * The three-level tree of the computer-algebra crate: an expression is a sum
 * of terms, a single term or a literal; a term is a product of factors, a
 * quotient of two factors or a nested expression; a factor is a power or a
 * nested expression. `contains` asks whether a symbol occurs anywhere in it.
 */
module Cas {
  import Outcomes

  datatype Literal = Int(i: Outcomes.i128) | Decimal(d: real) | Symbol(name: string)

  datatype CasExpression =
    | Terms(terms: seq<CasTerm>)
    | Term(term: CasTerm)
    | Literal(literal: Literal)

  datatype CasTerm =
    | Factors(factors: seq<CasFactor>)
    | Div(op1: CasFactor, op2: CasFactor)
    | Expression(expr: CasExpression)

  datatype CasFactor =
    | Exponent(base: CasExpression, exponent: CasExpression)
    | Expression(expr: CasExpression)

  /** The symbol `v` occurs in `e`: a symbol literal names it, or some part of `e` contains it. */
  predicate ExpressionHas(e: CasExpression, v: string)
    decreases e
  {
    match e
    case Literal(l) => l == Symbol(v)
    case Term(t) => TermHas(t, v)
    case Terms(ts) => exists i :: 0 <= i < |ts| && TermHas(ts[i], v)
  }

  predicate TermHas(t: CasTerm, v: string)
    decreases t
  {
    match t
    case Factors(fs) => exists i :: 0 <= i < |fs| && FactorHas(fs[i], v)
    case Div(a, b) => FactorHas(a, v) || FactorHas(b, v)
    case Expression(e) => ExpressionHas(e, v)
  }

  /** `Factor::contains`: a power contains `v` when its base or its exponent does. */
  predicate FactorHas(f: CasFactor, v: string)
    decreases f
  {
    match f
    case Exponent(b, x) => ExpressionHas(b, v) || ExpressionHas(x, v)
    case Expression(e) => ExpressionHas(e, v)
  }

  /** The symbols of a tree, left to right: the reference `contains` is checked against. */
  function Symbols(e: CasExpression): seq<string>
    decreases e
  {
    match e
    case Literal(l) => if l.Symbol? then [l.name] else []
    case Term(t) => TermSymbols(t)
    case Terms(ts) => TermsSymbols(ts)
  }

  function TermsSymbols(ts: seq<CasTerm>): seq<string>
    decreases ts
  {
    if |ts| == 0 then [] else TermSymbols(ts[0]) + TermsSymbols(ts[1..])
  }

  function TermSymbols(t: CasTerm): seq<string>
    decreases t
  {
    match t
    case Factors(fs) => FactorsSymbols(fs)
    case Div(a, b) => FactorSymbols(a) + FactorSymbols(b)
    case Expression(e) => Symbols(e)
  }

  function FactorsSymbols(fs: seq<CasFactor>): seq<string>
    decreases fs
  {
    if |fs| == 0 then [] else FactorSymbols(fs[0]) + FactorsSymbols(fs[1..])
  }

  function FactorSymbols(f: CasFactor): seq<string>
    decreases f
  {
    match f
    case Exponent(b, x) => Symbols(b) + Symbols(x)
    case Expression(e) => Symbols(e)
  }

  /** `contains` holds exactly for the symbols that occur in the tree. */
  lemma {:induction false} HasIffSymbol(e: CasExpression, v: string)
    ensures ExpressionHas(e, v) <==> v in Symbols(e)
    decreases e, 1
  {
    match e
    case Literal(l) =>
    case Term(t) => TermHasIffSymbol(t, v);
    case Terms(ts) => TermsHaveIffSymbol(e, ts, v);
  }

  lemma {:induction false} TermsHaveIffSymbol(e: CasExpression, ts: seq<CasTerm>, v: string)
    requires e.Terms? && forall t :: t in ts ==> t in e.terms
    ensures (exists i :: 0 <= i < |ts| && TermHas(ts[i], v)) <==> v in TermsSymbols(ts)
    decreases e, 0, |ts|
  {
    if |ts| > 0 {
      assert ts[0] in e.terms;
      TermHasIffSymbol(ts[0], v);
      TermsHaveIffSymbol(e, ts[1..], v);
      if exists i :: 0 <= i < |ts| && TermHas(ts[i], v) {
        var i :| 0 <= i < |ts| && TermHas(ts[i], v);
        if i > 0 {
          assert TermHas(ts[1..][i - 1], v);
        }
      }
      if exists i :: 0 <= i < |ts| - 1 && TermHas(ts[1..][i], v) {
        var i :| 0 <= i < |ts| - 1 && TermHas(ts[1..][i], v);
        assert TermHas(ts[i + 1], v);
      }
    }
  }

  lemma {:induction false} TermHasIffSymbol(t: CasTerm, v: string)
    ensures TermHas(t, v) <==> v in TermSymbols(t)
    decreases t, 1
  {
    match t
    case Factors(fs) => FactorsHaveIffSymbol(t, fs, v);
    case Div(a, b) =>
      FactorHasIffSymbol(a, v);
      FactorHasIffSymbol(b, v);
    case Expression(e) => HasIffSymbol(e, v);
  }

  lemma {:induction false} FactorsHaveIffSymbol(t: CasTerm, fs: seq<CasFactor>, v: string)
    requires t.Factors? && forall f :: f in fs ==> f in t.factors
    ensures (exists i :: 0 <= i < |fs| && FactorHas(fs[i], v)) <==> v in FactorsSymbols(fs)
    decreases t, 0, |fs|
  {
    if |fs| > 0 {
      assert fs[0] in t.factors;
      FactorHasIffSymbol(fs[0], v);
      FactorsHaveIffSymbol(t, fs[1..], v);
      if exists i :: 0 <= i < |fs| && FactorHas(fs[i], v) {
        var i :| 0 <= i < |fs| && FactorHas(fs[i], v);
        if i > 0 {
          assert FactorHas(fs[1..][i - 1], v);
        }
      }
      if exists i :: 0 <= i < |fs| - 1 && FactorHas(fs[1..][i], v) {
        var i :| 0 <= i < |fs| - 1 && FactorHas(fs[1..][i], v);
        assert FactorHas(fs[i + 1], v);
      }
    }
  }

  lemma {:induction false} FactorHasIffSymbol(f: CasFactor, v: string)
    ensures FactorHas(f, v) <==> v in FactorSymbols(f)
    decreases f, 1
  {
    match f
    case Exponent(b, x) =>
      HasIffSymbol(b, v);
      HasIffSymbol(x, v);
    case Expression(e) => HasIffSymbol(e, v);
  }

  /** `Expression::contains`: the Terms arm raises a flag for every term that contains `v`. */
  method Contains(e: CasExpression, v: string) returns (b: bool)
    ensures b == ExpressionHas(e, v)
    decreases e
  {
    match e
    case Literal(l) =>
      b := l.Symbol? && l.name == v;
    case Term(t) =>
      b := TermContains(t, v);
    case Terms(ts) =>
      b := false;
      for i := 0 to |ts|
        invariant b <==> exists k :: 0 <= k < i && TermHas(ts[k], v)
      {
        var c := TermContains(ts[i], v);
        if c {
          b := true;
        }
      }
  }

  /** `Term::contains`: the Factors arm raises a flag for every factor that contains `v`. */
  method TermContains(t: CasTerm, v: string) returns (b: bool)
    ensures b == TermHas(t, v)
    decreases t
  {
    match t
    case Factors(fs) =>
      b := false;
      for i := 0 to |fs|
        invariant b <==> exists k :: 0 <= k < i && FactorHas(fs[k], v)
      {
        if FactorHas(fs[i], v) {
          b := true;
        }
      }
    case Expression(e) =>
      b := Contains(e, v);
    case Div(op1, op2) =>
      b := FactorHas(op1, v) || FactorHas(op2, v);
  }

  /** `Expression::symbol`, `box_symbol`: the literal of a symbol, which contains exactly that name. */
  function SymbolExpression(name: string): (r: CasExpression)
    ensures Symbols(r) == [name]
    ensures forall v :: ExpressionHas(r, v) <==> v == name
  {
    Literal(Symbol(name))
  }

  /** `Expression::from_literal`, `box_literal`: a non-symbol literal contains no symbol. */
  function FromLiteral(value: Literal): (r: CasExpression)
    ensures r.Literal? && r.literal == value
    ensures !value.Symbol? ==> Symbols(r) == []
  {
    Literal(value)
  }

  /** `Expression::from_term`: the single-term expression contains what the term contains. */
  function FromTerm(term: CasTerm): (r: CasExpression)
    ensures Symbols(r) == TermSymbols(term)
    ensures forall v :: ExpressionHas(r, v) == TermHas(term, v)
  {
    Term(term)
  }

  /** `Expression::from_terms`, `box_terms`: the sum contains what some term contains. */
  function FromTerms(terms: seq<CasTerm>): (r: CasExpression)
    ensures Symbols(r) == TermsSymbols(terms)
    ensures forall v :: ExpressionHas(r, v) <==> exists i :: 0 <= i < |terms| && TermHas(terms[i], v)
  {
    Terms(terms)
  }

  /** `Term::from_factors`: the product contains what some factor contains. */
  function TermFromFactors(factors: seq<CasFactor>): (r: CasTerm)
    ensures TermSymbols(r) == FactorsSymbols(factors)
    ensures forall v :: TermHas(r, v) <==> exists i :: 0 <= i < |factors| && FactorHas(factors[i], v)
  {
    Factors(factors)
  }

  /** `Term::from_literal`: the literal wrapped as an expression term. */
  function TermFromLiteral(value: Literal): (r: CasTerm)
    ensures r == CasTerm.Expression(FromLiteral(value))
    ensures forall v :: TermHas(r, v) <==> value == Symbol(v)
  {
    CasTerm.Expression(Literal(value))
  }

  /** `Term::from_expressions`: one expression factor per expression, in order. */
  function TermFromExpressions(exprs: seq<CasExpression>): (r: CasTerm)
    ensures r.Factors? && |r.factors| == |exprs|
    ensures forall i :: 0 <= i < |exprs| ==> r.factors[i] == CasFactor.Expression(exprs[i])
    ensures forall v :: TermHas(r, v) <==> exists i :: 0 <= i < |exprs| && ExpressionHas(exprs[i], v)
  {
    var r := Factors(seq(|exprs|, i requires 0 <= i < |exprs| => CasFactor.Expression(exprs[i])));
    assert forall v :: TermHas(r, v) <==> exists i :: 0 <= i < |exprs| && FactorHas(r.factors[i], v);
    r
  }

  /** `Term::div`: the quotient contains what either factor contains. */
  function TermDiv(op1: CasFactor, op2: CasFactor): (r: CasTerm)
    ensures TermSymbols(r) == FactorSymbols(op1) + FactorSymbols(op2)
    ensures forall v :: TermHas(r, v) <==> FactorHas(op1, v) || FactorHas(op2, v)
  {
    Div(op1, op2)
  }

  /** `Factor::from_literal`: the literal as a nested expression. */
  function FactorFromLiteral(value: Literal): (r: CasFactor)
    ensures r == CasFactor.Expression(FromLiteral(value))
    ensures forall v :: FactorHas(r, v) <==> value == Symbol(v)
  {
    CasFactor.Expression(Literal(value))
  }

  /** `Factor::from_terms`: the parenthesised sum `(t1 + t2 + …)`. */
  function FactorFromTerms(terms: seq<CasTerm>): (r: CasFactor)
    ensures r == CasFactor.Expression(FromTerms(terms))
    ensures forall v :: FactorHas(r, v) <==> exists i :: 0 <= i < |terms| && TermHas(terms[i], v)
  {
    CasFactor.Expression(Terms(terms))
  }

  /** `Expression::simplify` has an empty body: the expression is left as it is. */
  function Simplify(e: CasExpression): (r: CasExpression)
    ensures r == e
  {
    e
  }

  /** The unit tests of the three files. */
  lemma ContainsTests()
    ensures FactorHas(FactorFromLiteral(Symbol("x")), "x")
    ensures !FactorHas(FactorFromLiteral(Symbol("x")), "y")
    ensures FactorHas(FactorFromTerms([TermFromLiteral(Int(5)), TermFromLiteral(Symbol("x"))]), "x")
    ensures TermHas(TermFromLiteral(Symbol("x")), "x")
    ensures !TermHas(TermFromLiteral(Symbol("x")), "y")
    ensures TermHas(TermFromFactors([FactorFromLiteral(Int(5)), FactorFromLiteral(Symbol("x"))]), "x")
  {
    var ts := [TermFromLiteral(Int(5)), TermFromLiteral(Symbol("x"))];
    assert TermHas(ts[1], "x");
    var fs := [FactorFromLiteral(Int(5)), FactorFromLiteral(Symbol("x"))];
    assert FactorHas(fs[1], "x");
  }
}
