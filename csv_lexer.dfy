/**
 * The lexer of the CSV codec (interpreter/src/csv.rs): the same grapheme cursor
 * as the Hawk lexer, with one sentinel space at the end, but it knows only
 * separators, numbers and column names. A newline gives a NewLine token on the
 * line it starts, a comma a Comma token; a digit run gives an Int token, or a
 * DecimalNumber token when a `.digit` follows it; a word that starts with a
 * letter gives an Identifier token that carries the word as a String. Every
 * other grapheme is skipped, and the list ends with one EOF token.
 *
 * The digit-run and fraction scans are the ones of the Hawk lexer and are
 * reused from `Lexing`.
 */
module CsvLexing {
  import opened Outcomes
  import opened Common
  import opened Lexing
  import LexerFacts

  /** `parse_number`: an Int token, or a DecimalNumber token when a `.digit` follows the digit run. */
  function NumberToken(cs: seq<string>, i: nat, line: nat, c: string): (r: Result<Scan>)
    requires Sentinelled(cs) && 1 <= i <= |cs| && c == cs[i - 1]
    ensures r.Ok? ==> i <= r.value.index <= |cs|
    ensures ParseUsize(c).None? ==> r == Ok(Scan(i, line, []))
  {
    if ParseUsize(c).None? then Ok(Scan(i, line, []))
    else
      var run := IntRun(cs, i, false, 0);
      IntRunFacts(cs, i, false, 0);
      if !run.Ok? then run.PropagateFailure()
      else
        var (isFloat, whole, k) := run.value;
        if isFloat then
          var (ds, j) := FractionDigits(cs, k);
          Ok(Scan(j, line, [Token(TokenType.DecimalNumber, line, Some(Object.Decimal(whole as real + FractionValue(ds))))]))
        else
          Ok(Scan(k - 1, line, [Token(TokenType.Int, line, Some(Object.Int(whole)))]))
  }

  /** `column_name`: a word that starts with the letter `ch` becomes an Identifier token carrying the word. */
  function NameToken(cs: seq<string>, i: nat, line: nat, ch: char): (s: Scan)
    requires Sentinelled(cs) && i <= |cs|
    requires IsAlphabetic(ch) ==> i < |cs|
    ensures s.index >= i
  {
    if !IsAlphabetic(ch) then Scan(i, line, [])
    else
      var (word, j) := WordEnd(cs, i, [ch]);
      Scan(j, line, [Token(TokenType.Identifier, line, Some(Object.String(word)))])
  }

  /** `match_char`: the handler for the grapheme `c`, which the cursor has just passed. */
  function CsvHandler(cs: seq<string>, i: nat, line: nat, c: string): (r: Result<Scan>)
    requires Sentinelled(cs) && 1 <= i <= |cs| && c == cs[i - 1]
    ensures r.Ok? ==> i <= r.value.index <= |cs|
  {
    if c == " " || c == "\r" || c == "\t" then Ok(Scan(i, line, []))
    else if c == "\n" then Ok(Scan(i, line + 1, [Plain(TokenType.NewLine, line + 1)]))
    else if c == "," then Ok(Scan(i, line, [Plain(TokenType.Comma, line)]))
    else
      var n := NumberToken(cs, i, line, c);
      if !n.Ok? then n
      else
        var w := if |c| > 0 then NameToken(cs, n.value.index, line, c[0]) else Scan(n.value.index, line, []);
        Ok(Scan(w.index, line, n.value.emitted + w.emitted))
  }

  /** `lex_csv` from cursor `i` on: the tokens the remaining handlers add, then the EOF token. */
  function CsvFrom(cs: seq<string>, i: nat, line: nat): (r: Result<seq<Token>>)
    requires Sentinelled(cs)
    decreases Remaining(cs, i)
  {
    if i >= |cs| then Ok([Plain(TokenType.EOF, line)])
    else
      var s := CsvHandler(cs, i + 1, line, cs[i]);
      if !s.Ok? then s.PropagateFailure()
      else Then(s.value.emitted, CsvFrom(cs, s.value.index, s.value.line))
  }

  /** One round of `lex_csv` after the tokens `before`: the handler's tokens follow them, or its failure ends the lexing. */
  lemma CsvFromRound(cs: seq<string>, i: nat, line: nat, before: seq<Token>)
    requires Sentinelled(cs) && i < |cs|
    ensures var s := CsvHandler(cs, i + 1, line, cs[i]);
      (s.Ok? ==> Then(before, CsvFrom(cs, i, line)) == Then(before + s.value.emitted, CsvFrom(cs, s.value.index, s.value.line))) &&
      (!s.Ok? ==> Then(before, CsvFrom(cs, i, line)) == s.PropagateFailure())
  {
    var s := CsvHandler(cs, i + 1, line, cs[i]);
    if s.Ok? {
      ThenThen(before, s.value.emitted, CsvFrom(cs, s.value.index, s.value.line));
    }
  }

  /** `Lexer::lex` of the CSV codec, on the grapheme clusters of a file. */
  function CsvTokens(graphemes: seq<string>): Result<seq<Token>>
  {
    CsvFrom(graphemes + [" "], 0, 1)
  }

  /** The CSV lexer's fields, updated in place by its handlers as in the source. */
  class CsvLexer {
    var characters: seq<string>
    var numChars: nat
    var tokens: seq<Token>
    var line: nat
    var index: nat

    /** The grapheme list carries its sentinel and `numChars` is its length. */
    predicate Valid()
      reads this
    {
      Sentinelled(characters) && numChars == |characters|
    }

    /** The fields after `lex_csv` has pushed the sentinel and measured the list. */
    constructor (graphemes: seq<string>)
      ensures Valid() && characters == graphemes + [" "]
      ensures tokens == [] && line == 1 && index == 0
    {
      characters := graphemes + [" "];
      numChars := |graphemes| + 1;
      tokens := [];
      line := 1;
      index := 0;
    }

    method ConsumeChar()
      modifies this
      ensures index == old(index) + 1
      ensures characters == old(characters) && numChars == old(numChars)
      ensures tokens == old(tokens) && line == old(line)
    {
      index := index + 1;
    }

    method AddToken(t: TokenType, literal: Option<Object>)
      modifies this
      ensures tokens == old(tokens) + [Token(t, line, literal)]
      ensures characters == old(characters) && numChars == old(numChars)
      ensures index == old(index) && line == old(line)
    {
      tokens := tokens + [Token(t, line, literal)];
    }

    /** A handler's effect: the cursor, line and tokens described by `s`. */
    predicate Did(s: Scan, before: seq<Token>)
      reads this
    {
      index == s.index && line == s.line && tokens == before + s.emitted
    }

    /**
     * `parse_int`: one digit `num` of the run, which raises the float flag when
     * a `.digit` follows the cursor; the accumulation is `usize` arithmetic,
     * halting on overflow as with overflow checks on.
     */
    method ParseInt(isFloat: bool, acc: nat, num: nat) returns (r: Result<(bool, nat)>)
      requires Valid() && index < numChars
      modifies this
      ensures Valid() && characters == old(characters) && tokens == old(tokens) && line == old(line)
      ensures acc * 10 + num < USIZE_LIMIT ==>
        r == Ok((if characters[old(index)] == "." && ParseUsize(characters[old(index) + 1]).Some? then true else isFloat, acc * 10 + num))
        && index == old(index) + 1
      ensures acc * 10 >= USIZE_LIMIT ==> r == Panic("attempt to multiply with overflow")
      ensures acc * 10 < USIZE_LIMIT <= acc * 10 + num ==> r == Panic("attempt to add with overflow")
    {
      var flag := isFloat;
      if characters[index] == "." {
        if ParseUsize(characters[index + 1]).Some? {
          flag := true;
        }
      }
      if acc * 10 >= USIZE_LIMIT {
        return Panic("attempt to multiply with overflow");
      }
      if acc * 10 + num >= USIZE_LIMIT {
        return Panic("attempt to add with overflow");
      }
      ConsumeChar();
      r := Ok((flag, acc * 10 + num));
    }

    /**
     * `parse_float`: collects the digit values under the cursor, most recent
     * first, then folds them into the fraction and adds the DecimalNumber token.
     */
    method ParseFloat(whole: nat)
      requires Valid() && index < numChars
      modifies this
      ensures Valid() && characters == old(characters) && line == old(line)
      ensures index == FractionDigits(old(characters), old(index)).1
      ensures tokens == old(tokens) +
        [Token(TokenType.DecimalNumber, line, Some(Object.Decimal(whole as real + FractionValue(FractionDigits(old(characters), old(index)).0))))]
    {
      var reversed, next := CollectFraction(characters, index);
      index := next;
      var decimal := FoldFraction(reversed);
      AddToken(TokenType.DecimalNumber, Some(Object.Decimal(whole as real + decimal)));
    }

    /** `parse_number`, entered with the cursor just past a digit grapheme. */
    method ParseNumber() returns (r: Result<()>)
      requires Valid() && 1 <= index <= numChars && ParseUsize(characters[index - 1]).Some?
      modifies this
      ensures Valid() && characters == old(characters)
      ensures var spec := NumberToken(old(characters), old(index), old(line), old(characters)[old(index) - 1]);
        spec.Ok? == r.Ok? && (r.Ok? ==> Did(spec.value, old(tokens))) && (!r.Ok? ==> r == spec.PropagateFailure())
    {
      IntRunFacts(characters, index, false, 0);
      var run := ReadIntRun();
      if !run.Ok? {
        return run.PropagateFailure();
      }
      var isFloat, acc := run.value.0, run.value.1;
      if isFloat {
        ParseFloat(acc);
      } else {
        AddToken(TokenType.Int, Some(Object.Int(acc)));
        index := index - 1;
      }
      r := Ok(());
    }

    /** The loop of `parse_int`: the float flag and the value of the digit run before the cursor. */
    method ReadIntRun() returns (r: Result<(bool, nat)>)
      requires Valid() && 1 <= index <= numChars
      modifies this
      ensures Valid() && characters == old(characters) && tokens == old(tokens) && line == old(line)
      ensures var spec := IntRun(old(characters), old(index), false, 0);
        spec.Ok? == r.Ok? && (r.Ok? ==> spec.value == (r.value.0, r.value.1, index)) && (!r.Ok? ==> r == spec.PropagateFailure())
    {
      var isFloat := false;
      var acc: nat := 0;
      ghost var spec := IntRun(characters, index, false, 0);
      while ParseUsize(characters[index - 1]).Some?
        invariant Valid() && characters == old(characters) && tokens == old(tokens) && line == old(line)
        invariant 1 <= index <= numChars && acc < USIZE_LIMIT
        invariant IntRun(characters, index, isFloat, acc) == spec
        decreases numChars - index
      {
        var num := ParseUsize(characters[index - 1]).value;
        ghost var wasFloat, wasAcc, wasIndex := isFloat, acc, index;
        var step := ParseInt(isFloat, acc, num);
        if !step.Ok? {
          assert step.Stop? && spec == Stop(step.halt);
          return step;
        }
        isFloat, acc := step.value.0, step.value.1;
        IntRunStep(characters, wasIndex, wasFloat, wasAcc, isFloat, acc);
      }
      r := Ok((isFloat, acc));
    }

    /** `column_name`, entered with the cursor just past the grapheme whose first character is `ch`. */
    method ColumnName(ch: char)
      requires Valid() && index <= numChars
      requires IsAlphabetic(ch) ==> index < numChars
      modifies this
      ensures Valid() && characters == old(characters)
      ensures Did(NameToken(old(characters), old(index), old(line), ch), old(tokens))
    {
      if IsAlphabetic(ch) {
        var word := [ch];
        while |characters[index]| > 0
          invariant Valid() && characters == old(characters) && tokens == old(tokens) && line == old(line)
          invariant old(index) <= index < numChars
          invariant WordEnd(characters, index, word) == WordEnd(characters, old(index), [ch])
          decreases numChars - index
        {
          var c := characters[index][0];
          ConsumeChar();
          if IsAlphanumeric(c) || c == '_' {
            word := word + [c];
          } else {
            index := index - 1;
            break;
          }
        }
        AddToken(TokenType.Identifier, Some(Object.String(word)));
      }
    }

    /** `match_char`. */
    method MatchChar(c: string) returns (r: Result<()>)
      requires Valid() && 1 <= index <= numChars && c == characters[index - 1]
      modifies this
      ensures Valid() && characters == old(characters)
      ensures var spec := CsvHandler(old(characters), old(index), old(line), c);
        spec.Ok? == r.Ok? && (r.Ok? ==> Did(spec.value, old(tokens))) && (!r.Ok? ==> r == spec.PropagateFailure())
    {
      r := Ok(());
      if c == " " || c == "\r" || c == "\t" {
      } else if c == "\n" {
        line := line + 1;
        AddToken(TokenType.NewLine, None);
      } else if c == "," {
        AddToken(TokenType.Comma, None);
      } else {
        ghost var before := tokens;
        if ParseUsize(c).Some? {
          r := ParseNumber();
        }
        if r.Ok? {
          ghost var n := NumberToken(old(characters), old(index), old(line), c);
          if |c| > 0 {
            ColumnName(c[0]);
          }
          assert tokens == before + n.value.emitted + (if |c| > 0 then NameToken(old(characters), n.value.index, old(line), c[0]) else Scan(n.value.index, old(line), [])).emitted;
        }
      }
    }

    /** `lex_csv`: runs the handlers until the cursor passes the end, then adds EOF. */
    method LexCsv() returns (r: Result<()>)
      requires Valid() && index == 0 && tokens == []
      modifies this
      ensures var spec := CsvFrom(old(characters), 0, old(line));
        spec.Ok? == r.Ok? && (r.Ok? ==> tokens == spec.value) && (!r.Ok? ==> r == spec.PropagateFailure())
    {
      assert Then(tokens, CsvFrom(characters, index, line)) == CsvFrom(characters, 0, old(line)) by {
        var s := CsvFrom(characters, 0, old(line));
        assert s.Ok? ==> [] + s.value == s.value;
      }
      while index < numChars
        invariant Valid() && characters == old(characters)
        invariant CsvFrom(characters, 0, old(line)) == Then(tokens, CsvFrom(characters, index, line))
        decreases Remaining(characters, index)
      {
        ghost var i0, line0, before := index, line, tokens;
        var c := characters[index];
        ConsumeChar();
        var status := MatchChar(c);
        CsvFromRound(characters, i0, line0, before);
        if !status.Ok? {
          return status;
        }
      }
      AddToken(TokenType.EOF, None);
      r := Ok(());
    }

    /** `Lexer::lex`: the token list of a CSV file given as its grapheme clusters. */
    static method Lex(graphemes: seq<string>) returns (r: Result<seq<Token>>)
      ensures r == CsvTokens(graphemes)
    {
      var lexer := new CsvLexer(graphemes);
      var status := lexer.LexCsv();
      if status.Ok? {
        r := Ok(lexer.tokens);
      } else {
        r := status.PropagateFailure();
      }
    }
  }

  // ---------------------------------------------------------------------------
  // What the token list says about the file.

  /** How many of the graphemes `cs[a..b]` are `g`. */
  function Occurrences(cs: seq<string>, g: string, a: nat, b: nat): nat
    requires a <= b <= |cs|
    decreases b - a
  {
    if a == b then 0 else (if cs[a] == g then 1 else 0) + Occurrences(cs, g, a + 1, b)
  }

  /** How many tokens of `ts` have type `t`. */
  function CountOf(ts: seq<Token>, t: TokenType): nat
  {
    if |ts| == 0 then 0 else (if ts[0].tokenType == t then 1 else 0) + CountOf(ts[1..], t)
  }

  lemma {:induction false} CountOfAppend(a: seq<Token>, b: seq<Token>, t: TokenType)
    ensures CountOf(a + b, t) == CountOf(a, t) + CountOf(b, t)
    decreases |a|
  {
    if |a| == 0 {
      assert a + b == b;
    } else {
      assert (a + b)[1..] == a[1..] + b;
      CountOfAppend(a[1..], b, t);
    }
  }

  lemma {:induction false} OccurrencesSplit(cs: seq<string>, g: string, a: nat, m: nat, b: nat)
    requires a <= m <= b <= |cs|
    ensures Occurrences(cs, g, a, b) == Occurrences(cs, g, a, m) + Occurrences(cs, g, m, b)
    decreases m - a
  {
    if a < m {
      OccurrencesSplit(cs, g, a + 1, m, b);
    }
  }

  /** The sentinel is a space, so it adds no newline and no comma. */
  lemma {:induction false} OccurrencesSentinel(gs: seq<string>, g: string, a: nat)
    requires a <= |gs| && g != " "
    ensures Occurrences(gs + [" "], g, a, |gs| + 1) == Occurrences(gs, g, a, |gs|)
    decreases |gs| - a
  {
    if a < |gs| {
      OccurrencesSentinel(gs, g, a + 1);
      assert (gs + [" "])[a] == gs[a];
    }
  }

  /** No newline and no comma among `cs[a..b]`. */
  predicate Quiet(cs: seq<string>, a: nat, b: nat)
    requires a <= b <= |cs|
  {
    forall k :: a <= k < b ==> cs[k] != "\n" && cs[k] != ","
  }

  lemma {:induction false} QuietCounts(cs: seq<string>, a: nat, b: nat)
    requires a <= b <= |cs| && Quiet(cs, a, b)
    ensures Occurrences(cs, "\n", a, b) == 0 && Occurrences(cs, ",", a, b) == 0
    decreases b - a
  {
    if a < b {
      QuietCounts(cs, a + 1, b);
    }
  }

  /** A digit grapheme is neither a newline nor a comma. */
  lemma DigitIsQuiet(g: string)
    requires ParseUsize(g).Some?
    ensures g != "\n" && g != ","
  {
    assert g[0] == '+' || '0' <= g[0] <= '9';
  }

  /** The graphemes `parse_int` passes, from the one before the cursor on, are digits. */
  lemma {:induction false} RunIsDigits(cs: seq<string>, i: nat, isFloat: bool, acc: nat)
    requires Sentinelled(cs) && 1 <= i <= |cs| && acc < USIZE_LIMIT
    ensures var r := IntRun(cs, i, isFloat, acc);
      r.Ok? ==> forall k :: i - 1 <= k < r.value.2 - 1 ==> ParseUsize(cs[k]).Some?
    decreases |cs| - i
  {
    match ParseUsize(cs[i - 1])
    case None =>
    case Some(num) =>
      if acc * 10 < USIZE_LIMIT && acc * 10 + num < USIZE_LIMIT {
        var isFloat' := if cs[i] == "." && ParseUsize(cs[i + 1]).Some? then true else isFloat;
        RunIsDigits(cs, i + 1, isFloat', acc * 10 + num);
      }
  }

  /** The graphemes a word scan passes start with a letter, a digit or `_`. */
  lemma {:induction false} WordIsQuiet(cs: seq<string>, i: nat, word: string)
    requires Sentinelled(cs) && i < |cs|
    ensures Quiet(cs, i, WordEnd(cs, i, word).1)
    decreases |cs| - i
  {
    match First(cs[i])
    case None =>
    case Some(ch) =>
      if IsAlphanumeric(ch) || ch == '_' {
        assert cs[i] != "\n" && cs[i] != "," by {
          assert "\n"[0] == '\n' && ","[0] == ',';
        }
        WordIsQuiet(cs, i + 1, word + [ch]);
      }
  }

  /** `parse_number` passes no newline and no comma, and adds one Int or DecimalNumber token. */
  lemma NumberIsQuiet(cs: seq<string>, i: nat, line: nat)
    requires Sentinelled(cs) && 1 <= i <= |cs| && ParseUsize(cs[i - 1]).Some?
    ensures var n := NumberToken(cs, i, line, cs[i - 1]);
      n.Ok? ==>
        && Quiet(cs, i - 1, n.value.index) && |n.value.emitted| == 1
        && n.value.emitted[0].tokenType in {TokenType.Int, TokenType.DecimalNumber}
  {
    IntRunFacts(cs, i, false, 0);
    RunIsDigits(cs, i, false, 0);
    var run := IntRun(cs, i, false, 0);
    if run.Ok? {
      var (isFloat, whole, k) := run.value;
      forall m | i - 1 <= m < k - 1
        ensures cs[m] != "\n" && cs[m] != ","
      {
        DigitIsQuiet(cs[m]);
      }
      if isFloat {
        FractionDigitsFacts(cs, k);
        var j := FractionDigits(cs, k).1;
        forall m | k <= m < j
          ensures cs[m] != "\n" && cs[m] != ","
        {
          DigitIsQuiet(cs[m]);
        }
        assert cs[k - 1] == ".";
      }
    }
  }

  /** A separator grapheme and the token type it stands for. */
  predicate Separator(g: string, t: TokenType)
  {
    (g == "\n" && t == TokenType.NewLine) || (g == "," && t == TokenType.Comma)
  }

  /**
   * The tokens of one handler: a newline adds exactly one NewLine token and a
   * comma exactly one Comma token; the handler of any other grapheme passes no
   * newline and no comma and adds neither kind of token.
   */
  lemma HandlerCount(cs: seq<string>, i: nat, line: nat, g: string, t: TokenType)
    requires Sentinelled(cs) && i < |cs| && Separator(g, t)
    ensures var s := CsvHandler(cs, i + 1, line, cs[i]);
      s.Ok? ==> CountOf(s.value.emitted, t) == Occurrences(cs, g, i, s.value.index)
  {
    var c := cs[i];
    if !(c == " " || c == "\r" || c == "\t" || c == "\n" || c == ",") {
      HandlerOther(cs, i, line);
      OtherCount(cs, i, line, g, t);
    }
  }

  /** The handler of a grapheme that is no blank, newline or comma: a number token, then a word. */
  lemma HandlerOther(cs: seq<string>, i: nat, line: nat)
    requires Sentinelled(cs) && i < |cs|
    requires var c := cs[i]; !(c == " " || c == "\r" || c == "\t" || c == "\n" || c == ",")
    ensures var c := cs[i];
      var n := NumberToken(cs, i + 1, line, c);
      (!n.Ok? ==> CsvHandler(cs, i + 1, line, c) == n) &&
      (n.Ok? ==>
         var w := if |c| > 0 then NameToken(cs, n.value.index, line, c[0]) else Scan(n.value.index, line, []);
         CsvHandler(cs, i + 1, line, c) == Ok(Scan(w.index, line, n.value.emitted + w.emitted)))
  {
  }

  /** The number and the word of such a grapheme pass no newline and no comma and add neither kind of token. */
  lemma OtherCount(cs: seq<string>, i: nat, line: nat, g: string, t: TokenType)
    requires Sentinelled(cs) && i < |cs| && Separator(g, t)
    requires var c := cs[i]; !(c == " " || c == "\r" || c == "\t" || c == "\n" || c == ",")
    ensures var c := cs[i];
      var n := NumberToken(cs, i + 1, line, c);
      n.Ok? ==>
        var w := if |c| > 0 then NameToken(cs, n.value.index, line, c[0]) else Scan(n.value.index, line, []);
        CountOf(n.value.emitted + w.emitted, t) == Occurrences(cs, g, i, w.index)
  {
    var c := cs[i];
    var n := NumberToken(cs, i + 1, line, c);
    if n.Ok? {
      var w := if |c| > 0 then NameToken(cs, n.value.index, line, c[0]) else Scan(n.value.index, line, []);
      if ParseUsize(c).Some? {
        NumberIsQuiet(cs, i + 1, line);
      }
      if |c| > 0 && IsAlphabetic(c[0]) {
        WordIsQuiet(cs, n.value.index, [c[0]]);
      }
      assert Quiet(cs, i, w.index);
      QuietCounts(cs, i, w.index);
      CountOfAppend(n.value.emitted, w.emitted, t);
    }
  }

  /** No handler adds an EOF token. */
  lemma HandlerNoEof(cs: seq<string>, i: nat, line: nat)
    requires Sentinelled(cs) && i < |cs|
    ensures var s := CsvHandler(cs, i + 1, line, cs[i]);
      s.Ok? ==> CountOf(s.value.emitted, TokenType.EOF) == 0
  {
    var c := cs[i];
    var s := CsvHandler(cs, i + 1, line, c);
    if s.Ok? && !(c == " " || c == "\r" || c == "\t" || c == "\n" || c == ",") {
      var n := NumberToken(cs, i + 1, line, c);
      var w := if |c| > 0 then NameToken(cs, n.value.index, line, c[0]) else Scan(n.value.index, line, []);
      if ParseUsize(c).Some? {
        NumberIsQuiet(cs, i + 1, line);
      }
      CountOfAppend(n.value.emitted, w.emitted, TokenType.EOF);
    }
  }

  /**
   * The token list from cursor `i` has one NewLine token for each newline
   * grapheme and one Comma token for each comma grapheme from `i` on.
   */
  lemma {:induction false} CsvFromCount(cs: seq<string>, i: nat, line: nat, g: string, t: TokenType)
    requires Sentinelled(cs) && i <= |cs| && Separator(g, t)
    ensures var r := CsvFrom(cs, i, line);
      r.Ok? ==> CountOf(r.value, t) == Occurrences(cs, g, i, |cs|)
    decreases |cs| - i
  {
    if i < |cs| {
      var s := CsvHandler(cs, i + 1, line, cs[i]);
      CsvFromStep(cs, i, line);
      if s.Ok? {
        var rest := CsvFrom(cs, s.value.index, s.value.line);
        CsvFromCount(cs, s.value.index, s.value.line, g, t);
        if rest.Ok? {
          HandlerCount(cs, i, line, g, t);
          OccurrencesSplit(cs, g, i, s.value.index, |cs|);
          CountOfAppend(s.value.emitted, rest.value, t);
        }
      }
    }
  }

  /** The token list from any cursor holds exactly one EOF token, the last. */
  lemma {:induction false} CsvFromEof(cs: seq<string>, i: nat, line: nat)
    requires Sentinelled(cs) && i <= |cs|
    ensures var r := CsvFrom(cs, i, line);
      r.Ok? ==> CountOf(r.value, TokenType.EOF) == 1 && |r.value| > 0 && r.value[|r.value| - 1].tokenType == TokenType.EOF
    decreases |cs| - i
  {
    if i < |cs| {
      var s := CsvHandler(cs, i + 1, line, cs[i]);
      CsvFromStep(cs, i, line);
      if s.Ok? {
        var rest := CsvFrom(cs, s.value.index, s.value.line);
        CsvFromEof(cs, s.value.index, s.value.line);
        if rest.Ok? {
          var all := s.value.emitted + rest.value;
          HandlerNoEof(cs, i, line);
          CountOfAppend(s.value.emitted, rest.value, TokenType.EOF);
          assert all[|all| - 1] == rest.value[|rest.value| - 1];
        }
      }
    }
  }

  /** One round of `lex_csv`'s loop. */
  lemma CsvFromStep(cs: seq<string>, i: nat, line: nat)
    requires Sentinelled(cs) && i < |cs|
    ensures var s := CsvHandler(cs, i + 1, line, cs[i]);
      s.Ok? ==> CsvFrom(cs, i, line) == Then(s.value.emitted, CsvFrom(cs, s.value.index, s.value.line))
  {
  }

  /**
   * The lexed file has one NewLine token per newline grapheme, one Comma token
   * per comma grapheme and one EOF token, at the end.
   */
  lemma CsvTokenCounts(graphemes: seq<string>)
    ensures var r := CsvTokens(graphemes);
      r.Ok? ==>
        && CountOf(r.value, TokenType.NewLine) == Occurrences(graphemes, "\n", 0, |graphemes|)
        && CountOf(r.value, TokenType.Comma) == Occurrences(graphemes, ",", 0, |graphemes|)
        && CountOf(r.value, TokenType.EOF) == 1
        && r.value[|r.value| - 1].tokenType == TokenType.EOF
  {
    CsvFromCount(graphemes + [" "], 0, 1, "\n", TokenType.NewLine);
    CsvFromCount(graphemes + [" "], 0, 1, ",", TokenType.Comma);
    CsvFromEof(graphemes + [" "], 0, 1);
    OccurrencesSentinel(graphemes, "\n", 0);
    OccurrencesSentinel(graphemes, ",", 0);
  }

  /**
   * A carriage return and newline that form one grapheme cluster adds no token
   * and does not advance the line, as it matches none of the handler's cases.
   */
  lemma CarriageReturnNewLineIgnored(cs: seq<string>, i: nat, line: nat)
    requires Sentinelled(cs) && i < |cs| && cs[i] == "\r\n"
    ensures CsvHandler(cs, i + 1, line, cs[i]) == Ok(Scan(i + 1, line, []))
  {
    assert cs[i][0] == '\r';
    assert ParseUsize(cs[i]).None?;
    assert NameToken(cs, i + 1, line, cs[i][0]) == Scan(i + 1, line, []);
    var none: seq<Token> := [];
    assert none + none == none;
  }

  /**
   * A run of single-digit graphemes not followed by `.digit` is one Int token
   * holding the run's decimal value, and lexing resumes on the grapheme after it.
   */
  lemma IntCells(cs: seq<string>, i: nat, k: nat, line: nat)
    requires Sentinelled(cs) && i < k < |cs|
    requires LexerFacts.DigitGraphemes(cs, i, k) && ParseUsize(cs[k]).None?
    requires !(cs[k] == "." && ParseUsize(cs[k + 1]).Some?)
    requires LexerFacts.RunValue(cs, i, k) < USIZE_LIMIT
    ensures CsvFrom(cs, i, line) == Then([Token(TokenType.Int, line, Some(Object.Int(LexerFacts.RunValue(cs, i, k))))], CsvFrom(cs, k, line))
  {
    assert LexerFacts.DigitGraphemes(cs, i, i) && LexerFacts.RunValue(cs, i, i) == 0 by {
      assert cs[i..i] == [];
    }
    LexerFacts.IntRunValue(cs, i + 1, i + 1, k + 1);
    assert ParseUsize(cs[i]).Some?;
    var n := NumberToken(cs, i + 1, line, cs[i]);
    assert n == Ok(Scan(k, line, [Token(TokenType.Int, line, Some(Object.Int(LexerFacts.RunValue(cs, i, k))))]));
    assert !IsAlphabetic(cs[i][0]);
    assert n.value.emitted + [] == n.value.emitted;
    HandlerOther(cs, i, line);
  }
}
