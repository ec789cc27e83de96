/**
 * The Hawk lexer (lib/src/lexer.rs): a cursor over the grapheme clusters of the
 * source, followed by one sentinel space, that emits tokens tagged with the
 * current line and ends the list with one EOF token.
 *
 * The functions below describe each handler on a value (the handler starts with
 * the cursor just after the character it matches and returns the new cursor,
 * the new line and the tokens it adds); the class `Lexer` runs the same
 * handlers in place on its fields and is proved to agree with them.
 */
module Lexing {
  import opened Outcomes
  import opened Common

  /**
   * The value of the ASCII digits `g[s..n]`, most significant first, or None
   * when one of them is not a digit.
   */
  function DigitsFrom(g: string, s: nat, n: nat): (r: Option<nat>)
    requires s <= n <= |g|
    ensures r.Some? && s < n ==> '0' <= g[s] <= '9'
    ensures n == s + 1 ==> (r.Some? <==> '0' <= g[s] <= '9')
    ensures n == s + 1 && r.Some? ==> r.value == g[s] as int - '0' as int
    decreases n - s
  {
    if n == s then Some(0)
    else if '0' <= g[n - 1] <= '9' then
      match DigitsFrom(g, s, n - 1)
      case None => None
      case Some(v) => Some(v * 10 + (g[n - 1] as int - '0' as int))
    else None
  }

  /**
   * Rust's `str::parse::<usize>()` on one grapheme: an optional `+`, then at
   * least one digit, with a value below the 32-bit `usize` limit.
   */
  function ParseUsize(g: string): (r: Option<nat>)
    ensures r.Some? ==> |g| > 0 && (g[0] == '+' || '0' <= g[0] <= '9')
    ensures r.Some? ==> r.value < USIZE_LIMIT
    ensures |g| == 1 ==> (r.Some? <==> '0' <= g[0] <= '9')
    ensures |g| == 1 && r.Some? ==> r.value == g[0] as int - '0' as int
  {
    var s := if |g| > 0 && g[0] == '+' then 1 else 0;
    if s == |g| then None
    else
      match DigitsFrom(g, s, |g|)
      case Some(v) => if v < USIZE_LIMIT then Some(v) else None
      case None => None
  }

  /** `char::is_alphabetic`, restricted to ASCII letters. */
  predicate IsAlphabetic(c: char)
  {
    'a' <= c <= 'z' || 'A' <= c <= 'Z'
  }

  /** `char::is_alphanumeric`, restricted to ASCII letters and digits. */
  predicate IsAlphanumeric(c: char)
  {
    IsAlphabetic(c) || '0' <= c <= '9'
  }

  /** `g.chars().nth(0)`. */
  function First(g: string): (r: Option<char>)
    ensures r.Some? <==> |g| > 0
    ensures r.Some? ==> r.value == g[0]
  {
    if |g| > 0 then Some(g[0]) else None
  }

  /** The grapheme list with its sentinel: the last entry is the space `lex_code` pushes. */
  predicate Sentinelled(cs: seq<string>)
  {
    |cs| > 0 && cs[|cs| - 1] == " "
  }

  /** What one handler did: the new cursor, the new line and the tokens it added. */
  datatype Scan = Scan(index: nat, line: nat, emitted: seq<Token>)

  /** A token without a literal, on `line`. */
  function Plain(t: TokenType, line: nat): Token
  {
    Token(t, line, None)
  }

  /** The one-grapheme tokens of `match_character`. */
  function SingleToken(c: string): Option<TokenType>
  {
    match c
    case "(" => Some(TokenType.ParenthesisLeft)
    case ")" => Some(TokenType.ParenthesisRight)
    case "{" => Some(TokenType.BraceLeft)
    case "}" => Some(TokenType.BraceRight)
    case "[" => Some(TokenType.BracketLeft)
    case "]" => Some(TokenType.BracketRight)
    case "|" => Some(TokenType.Abs)
    case "*" => Some(TokenType.Asterisk)
    case "^" => Some(TokenType.Caret)
    case ":" => Some(TokenType.Colon)
    case "," => Some(TokenType.Comma)
    case "." => Some(TokenType.Dot)
    case "-" => Some(TokenType.Minus)
    case "Â±" => Some(TokenType.PlusMinus)
    case "?" => Some(TokenType.QuestionMark)
    case ";" => Some(TokenType.Semicolon)
    case _ => None
  }

  /** `match_next`: the grapheme under the cursor is `expected` (the cursor is never at the end here). */
  function MatchNext(cs: seq<string>, i: nat, expected: string): bool
    requires i < |cs|
  {
    cs[i] == expected
  }

  /** `peek`: the grapheme under the cursor is `expected`, and false past the end. */
  function Peek(cs: seq<string>, i: nat, expected: string): bool
  {
    i < |cs| && cs[i] == expected
  }

  /** A one- or two-grapheme operator: `pair` when `next` follows, else `single`. */
  function Choice(cs: seq<string>, i: nat, line: nat, next: string, pair: TokenType, single: TokenType): (s: Scan)
    requires i < |cs|
    ensures s.line == line && |s.emitted| == 1 && s.emitted[0].line == line && s.emitted[0].literal == None
    ensures s.index == i + 1 <==> cs[i] == next
    ensures s.index == i <==> cs[i] != next
    ensures s.emitted[0].tokenType == (if cs[i] == next then pair else single)
  {
    if MatchNext(cs, i, next) then Scan(i + 1, line, [Plain(pair, line)])
    else Scan(i, line, [Plain(single, line)])
  }

  /** `equal`: `==`, `=>` or `=`. */
  function Equal(cs: seq<string>, i: nat, line: nat): (s: Scan)
    requires i < |cs|
    ensures s.line == line && |s.emitted| == 1 && s.emitted[0].line == line && s.emitted[0].literal == None
    ensures s.emitted[0].tokenType ==
      (if cs[i] == "=" then TokenType.EqualEqual else if cs[i] == ">" then TokenType.FatArrow else TokenType.Assign)
    ensures s.index == (if cs[i] == "=" || cs[i] == ">" then i + 1 else i)
  {
    if MatchNext(cs, i, "=") then Scan(i + 1, line, [Plain(TokenType.EqualEqual, line)])
    else if MatchNext(cs, i, ">") then Scan(i + 1, line, [Plain(TokenType.FatArrow, line)])
    else Scan(i, line, [Plain(TokenType.Assign, line)])
  }

  /** Where a `//` comment stops: at the next newline, or at the end. */
  function LineCommentEnd(cs: seq<string>, i: nat): (j: nat)
    requires i <= |cs|
    ensures i <= j <= |cs|
    decreases |cs| - i
  {
    if !Peek(cs, i, "\n") && i < |cs| then LineCommentEnd(cs, i + 1) else i
  }

  /** A star-slash pair starts at `k`. */
  predicate ClosesComment(cs: seq<string>, k: nat)
  {
    k + 1 < |cs| && cs[k] == "*" && cs[k + 1] == "/"
  }

  /** Where a block comment's scan stops: on the star of the next star-slash pair, or at the end. */
  function BlockCommentEnd(cs: seq<string>, i: nat): (j: nat)
    requires Sentinelled(cs) && i <= |cs|
    ensures i <= j <= |cs|
    decreases |cs| - i
  {
    if !(Peek(cs, i, "*") && cs[i + 1] == "/") && i < |cs| then BlockCommentEnd(cs, i + 1) else i
  }

  /** `slash`: a line comment, a block comment (skipping its closing star-slash) or a Slash token. */
  function SlashToken(cs: seq<string>, i: nat, line: nat): (s: Scan)
    requires Sentinelled(cs) && i < |cs|
    ensures s.index >= i
  {
    if MatchNext(cs, i, "/") then Scan(LineCommentEnd(cs, i + 1), line, [])
    else if MatchNext(cs, i, "*") then Scan(BlockCommentEnd(cs, i + 1) + 2, line, [])
    else Scan(i, line, [Plain(TokenType.Slash, line)])
  }

  /**
   * The scan of `quote`: the cursor stops on the closing quote (or at the end);
   * the line grows for each newline the cursor steps onto, which leaves out a
   * newline right after the opening quote.
   */
  function QuoteEnd(cs: seq<string>, i: nat, line: nat): (r: (nat, nat))
    requires i <= |cs|
    ensures i <= r.0 <= |cs| && r.1 >= line
    decreases |cs| - i
  {
    if !Peek(cs, i, "\"") && i < |cs| then
      QuoteEnd(cs, i + 1, if Peek(cs, i + 1, "\n") then line + 1 else line)
    else (i, line)
  }

  /** The graphemes joined into one string. */
  function Join(gs: seq<string>): string
  {
    if |gs| == 0 then "" else Join(gs[..|gs| - 1]) + gs[|gs| - 1]
  }

  /**
   * The grapheme clusters `graphemes(true)` splits a text into, for text
   * without combining sequences: one cluster per character, except that a
   * carriage return followed by a newline is one cluster.
   */
  function Graphemes(s: string): seq<string>
    decreases |s|
  {
    if |s| == 0 then []
    else if |s| >= 2 && s[0] == '\r' && s[1] == '\n' then ["\r\n"] + Graphemes(s[2..])
    else [[s[0]]] + Graphemes(s[1..])
  }

  lemma {:induction false} JoinAppend(a: seq<string>, b: seq<string>)
    ensures Join(a + b) == Join(a) + Join(b)
    decreases |b|
  {
    if |b| == 0 {
      assert a + b == a;
    } else {
      assert (a + b)[..|a + b| - 1] == a + b[..|b| - 1];
      JoinAppend(a, b[..|b| - 1]);
    }
  }

  /** Joining the clusters of a text gives back the text. */
  lemma {:induction false} GraphemesJoin(s: string)
    ensures Join(Graphemes(s)) == s
    decreases |s|
  {
    if |s| > 0 {
      var n := if |s| >= 2 && s[0] == '\r' && s[1] == '\n' then 2 else 1;
      if n == 2 {
        assert s[..2] == "\r\n";
      } else {
        assert s[..1] == [s[0]];
      }
      assert Graphemes(s) == [s[..n]] + Graphemes(s[n..]);
      GraphemesJoin(s[n..]);
      JoinAppend([s[..n]], Graphemes(s[n..]));
      assert Join([s[..n]]) == s[..n] by {
        assert [s[..n]][..0] == [];
      }
      assert s[..n] + s[n..] == s;
    }
  }

  /** `quote`: a String token holding exactly the graphemes between the quotes. */
  function Quote(cs: seq<string>, i: nat, line: nat): (s: Scan)
    requires i <= |cs|
    ensures s.index > i && s.line >= line && |s.emitted| == 1
    ensures s.emitted[0].tokenType == TokenType.String && s.emitted[0].line == s.line
  {
    var (j, l) := QuoteEnd(cs, i, line);
    Scan(j + 1, l, [Token(TokenType.String, l, Some(Object.String(Join(cs[i..j]))))])
  }

  /**
   * `parse_int`: accumulates the digit run that ends just before the cursor,
   * noting a `.digit` after it; the result is the float flag, the value and the
   * cursor one past the first non-digit. The accumulation is `usize`
   * arithmetic on the 32-bit target, halting on overflow as with overflow
   * checks on.
   */
  function IntRun(cs: seq<string>, i: nat, isFloat: bool, acc: nat): (r: Result<(bool, nat, nat)>)
    requires Sentinelled(cs) && 1 <= i <= |cs| && acc < USIZE_LIMIT
    ensures r.Ok? || r.Stop?
    ensures r.Ok? ==> i <= r.value.2 <= |cs|
    decreases |cs| - i
  {
    match ParseUsize(cs[i - 1])
    case None => Ok((isFloat, acc, i))
    case Some(num) =>
      var isFloat' := if cs[i] == "." && ParseUsize(cs[i + 1]).Some? then true else isFloat;
      if acc * 10 >= USIZE_LIMIT then Panic("attempt to multiply with overflow")
      else if acc * 10 + num >= USIZE_LIMIT then Panic("attempt to add with overflow")
      else IntRun(cs, i + 1, isFloat', acc * 10 + num)
  }

  /**
   * What `parse_int` leaves behind: the value fits in `usize`, the cursor is
   * one past the first non-digit, and a float flag raised during the run means
   * that grapheme is the `.` of a `.digit`.
   */
  lemma {:induction false} IntRunFacts(cs: seq<string>, i: nat, isFloat: bool, acc: nat)
    requires Sentinelled(cs) && 1 <= i <= |cs| && acc < USIZE_LIMIT
    ensures var r := IntRun(cs, i, isFloat, acc);
      r.Ok? ==>
        && r.value.1 < USIZE_LIMIT && ParseUsize(cs[r.value.2 - 1]).None?
        && (ParseUsize(cs[i - 1]).Some? ==> r.value.2 > i)
        && (r.value.0 && !isFloat ==> r.value.2 < |cs| && cs[r.value.2 - 1] == "." && ParseUsize(cs[r.value.2]).Some?)
    decreases |cs| - i
  {
    match ParseUsize(cs[i - 1])
    case None =>
    case Some(num) =>
      if acc * 10 < USIZE_LIMIT && acc * 10 + num < USIZE_LIMIT {
        var isFloat' := if cs[i] == "." && ParseUsize(cs[i + 1]).Some? then true else isFloat;
        IntRunFacts(cs, i + 1, isFloat', acc * 10 + num);
        var r := IntRun(cs, i + 1, isFloat', acc * 10 + num);
        if r.Ok? && r.value.0 && !isFloat && !isFloat' {
          assert r.value.2 < |cs| && cs[r.value.2 - 1] == "." && ParseUsize(cs[r.value.2]).Some?;
        }
      }
  }

  /** `parse_float`'s scan: the digit values from the cursor on, and the cursor after them. */
  function FractionDigits(cs: seq<string>, i: nat): (r: (seq<nat>, nat))
    requires Sentinelled(cs) && i < |cs|
    ensures i <= r.1 < |cs| && r.1 - i == |r.0|
    decreases |cs| - i
  {
    match ParseUsize(cs[i])
    case None => ([], i)
    case Some(d) =>
      var rest := FractionDigits(cs, i + 1);
      ([d] + rest.0, rest.1)
  }

  /** The fraction scan stops on a non-digit and collects the value of each digit it passes. */
  lemma {:induction false} FractionDigitsFacts(cs: seq<string>, i: nat)
    requires Sentinelled(cs) && i < |cs|
    ensures ParseUsize(cs[FractionDigits(cs, i).1]).None?
    ensures forall k :: i <= k < FractionDigits(cs, i).1 ==> ParseUsize(cs[k]) == Some(FractionDigits(cs, i).0[k - i])
    decreases |cs| - i
  {
    if ParseUsize(cs[i]).Some? {
      FractionDigitsFacts(cs, i + 1);
    }
  }

  /** The value of `0.d1d2…dn`, exactly (`parse_float` computes it in `f64`). */
  function FractionValue(ds: seq<nat>): real
  {
    if |ds| == 0 then 0.0 else (ds[0] as real + FractionValue(ds[1..])) / 10.0
  }

  /** `number`: an Int token, or a Float token when a `.digit` follows the digit run. */
  function Number(cs: seq<string>, i: nat, line: nat, c: string): (r: Result<Scan>)
    requires Sentinelled(cs) && 1 <= i <= |cs| && c == cs[i - 1]
    ensures r.Ok? ==> i <= r.value.index <= |cs|
    ensures ParseUsize(c).None? ==> r == Ok(Scan(i, line, []))
  {
    if ParseUsize(c).None? then Ok(Scan(i, line, []))
    else
      var run := IntRun(cs, i, false, 0);
      IntRunFacts(cs, i, false, 0);
      if !run.Ok? then run.PropagateFailure()
      else
        var (isFloat, whole, k) := run.value;
        if isFloat then
          var (ds, j) := FractionDigits(cs, k);
          Ok(Scan(j, line, [Token(TokenType.Float, line, Some(Object.Float(whole as real + FractionValue(ds))))]))
        else
          Ok(Scan(k - 1, line, [Token(TokenType.Int, line, Some(Object.Int(whole)))]))
  }

  /** The keyword tokens of `match_keyword_identifier`, or an Identifier carrying the word. */
  function WordToken(word: string, line: nat): (t: Token)
    ensures t.line == line && t.tokenType != TokenType.EOF
  {
    match word
    case "if" => Plain(TokenType.If, line)
    case "else" => Plain(TokenType.Else, line)
    case "loop" => Plain(TokenType.Loop, line)
    case "while" => Plain(TokenType.While, line)
    case "for" => Plain(TokenType.For, line)
    case "break" => Plain(TokenType.Break, line)
    case "class" => Plain(TokenType.Class, line)
    case "super" => Plain(TokenType.Super, line)
    case "this" => Plain(TokenType.This, line)
    case "let" => Plain(TokenType.Let, line)
    case "null" => Plain(TokenType.Null, line)
    case "function" => Plain(TokenType.Function, line)
    case "return" => Plain(TokenType.Return, line)
    case "print" => Plain(TokenType.Print, line)
    case "true" => Token(TokenType.True, line, Some(Boolean(true)))
    case "false" => Token(TokenType.False, line, Some(Boolean(false)))
    case "or" => Plain(TokenType.Or, line)
    case "and" => Plain(TokenType.And, line)
    case "not" => Plain(TokenType.Not, line)
    case "import" => Plain(TokenType.Import, line)
    case "process" => Plain(TokenType.Process, line)
    case _ => Token(TokenType.Identifier, line, Some(Object.Identifier(word)))
  }

  /** The scan of `keyword_identifier`: first characters of graphemes while they are alphanumeric or `_`. */
  function WordEnd(cs: seq<string>, i: nat, word: string): (r: (string, nat))
    requires Sentinelled(cs) && i < |cs|
    ensures i <= r.1 < |cs|
    decreases |cs| - i
  {
    match First(cs[i])
    case None => (word, i)
    case Some(ch) =>
      if IsAlphanumeric(ch) || ch == '_' then WordEnd(cs, i + 1, word + [ch]) else (word, i)
  }

  /** `keyword_identifier`: a word that starts with a letter becomes a keyword or Identifier token. */
  function KeywordIdentifier(cs: seq<string>, i: nat, line: nat, c: string): (s: Scan)
    requires Sentinelled(cs) && i <= |cs|
    requires First(c).Some? && IsAlphabetic(First(c).value) ==> i < |cs|
    ensures s.index >= i
  {
    match First(c)
    case None => Scan(i, line, [])
    case Some(ch) =>
      if !IsAlphabetic(ch) then Scan(i, line, [])
      else
        var (word, j) := WordEnd(cs, i, [ch]);
        Scan(j, line, [WordToken(word, line)])
  }

  /** `number_keyword_identifier`: `number`, then `keyword_identifier` on the same grapheme. */
  function NumberKeywordIdentifier(cs: seq<string>, i: nat, line: nat, c: string): (r: Result<Scan>)
    requires Sentinelled(cs) && 1 <= i <= |cs| && c == cs[i - 1]
    ensures r.Ok? ==> r.value.index >= i
  {
    var n := Number(cs, i, line, c);
    if !n.Ok? then n
    else
      var w := KeywordIdentifier(cs, n.value.index, line, c);
      Ok(Scan(w.index, line, n.value.emitted + w.emitted))
  }

  /** `match_character`: the handler for the grapheme `c`, which the cursor has just passed. */
  function MatchCharacter(cs: seq<string>, i: nat, line: nat, c: string): (r: Result<Scan>)
    requires Sentinelled(cs) && 1 <= i <= |cs| && c == cs[i - 1]
    ensures r.Ok? ==> r.value.index >= i
  {
    if c == " " || c == "\r" || c == "\t" then Ok(Scan(i, line, []))
    else if c == "\n" then Ok(Scan(i, line + 1, []))
    else if SingleToken(c).Some? then Ok(Scan(i, line, [Plain(SingleToken(c).value, line)]))
    else if c == "+" then Ok(Choice(cs, i, line, "-", TokenType.PlusMinus, TokenType.Plus))
    else if c == "=" then Ok(Equal(cs, i, line))
    else if c == "!" then Ok(Choice(cs, i, line, "=", TokenType.NotEqual, TokenType.Not))
    else if c == ">" then Ok(Choice(cs, i, line, "=", TokenType.GreaterThanEqual, TokenType.GreaterThan))
    else if c == "<" then Ok(Choice(cs, i, line, "=", TokenType.LessThanEqual, TokenType.LessThan))
    else if c == "/" then Ok(SlashToken(cs, i, line))
    else if c == "\"" then Ok(Quote(cs, i, line))
    else NumberKeywordIdentifier(cs, i, line, c)
  }

  /** Cursor distance to the end, the measure of the scan loop. */
  function Remaining(cs: seq<string>, i: nat): nat
  {
    if i < |cs| then |cs| - i else 0
  }

  /** `lex_code` from cursor `i` on: the tokens the remaining handlers add, then the EOF token. */
  function LexFrom(cs: seq<string>, i: nat, line: nat): (r: Result<seq<Token>>)
    requires Sentinelled(cs)
    decreases Remaining(cs, i)
  {
    if i >= |cs| then Ok([Plain(TokenType.EOF, line)])
    else
      var s := MatchCharacter(cs, i + 1, line, cs[i]);
      if !s.Ok? then s.PropagateFailure()
      else
        var rest := LexFrom(cs, s.value.index, s.value.line);
        if rest.Ok? then Ok(s.value.emitted + rest.value) else rest
  }

  /** `Lexer::lex`: the token list of a source given as its grapheme clusters. */
  function Lex(graphemes: seq<string>): Result<seq<Token>>
  {
    LexFrom(graphemes + [" "], 0, 1)
  }

  /** One round of `parse_int`'s loop. */
  lemma IntRunStep(cs: seq<string>, i: nat, isFloat: bool, acc: nat, isFloat': bool, acc': nat)
    requires Sentinelled(cs) && 1 <= i < |cs| && acc < USIZE_LIMIT
    requires ParseUsize(cs[i - 1]).Some? && acc' == acc * 10 + ParseUsize(cs[i - 1]).value < USIZE_LIMIT
    requires isFloat' == if cs[i] == "." && ParseUsize(cs[i + 1]).Some? then true else isFloat
    ensures IntRun(cs, i, isFloat, acc) == IntRun(cs, i + 1, isFloat', acc')
  {
  }

  /** One round of `parse_float`'s loop. */
  lemma FractionStep(cs: seq<string>, i: nat)
    requires Sentinelled(cs) && i < |cs| && ParseUsize(cs[i]).Some?
    ensures i + 1 < |cs|
    ensures FractionDigits(cs, i) == ([ParseUsize(cs[i]).value] + FractionDigits(cs, i + 1).0, FractionDigits(cs, i + 1).1)
  {
  }

  /** One round of `lex_code`'s loop. */
  lemma LexFromStep(cs: seq<string>, i: nat, line: nat)
    requires Sentinelled(cs) && i < |cs|
    ensures var s := MatchCharacter(cs, i + 1, line, cs[i]);
      LexFrom(cs, i, line) == if s.Ok? then Then(s.value.emitted, LexFrom(cs, s.value.index, s.value.line)) else s.PropagateFailure()
  {
  }

  /**
   * The first loop of `parse_float`: the digit values under the cursor, each
   * inserted at the front, and the cursor after them.
   */
  method CollectFraction(cs: seq<string>, start: nat) returns (reversed: seq<nat>, i: nat)
    requires Sentinelled(cs) && start < |cs|
    ensures i == FractionDigits(cs, start).1
    ensures |reversed| == |FractionDigits(cs, start).0|
    ensures forall j :: 0 <= j < |reversed| ==> reversed[j] == FractionDigits(cs, start).0[|reversed| - 1 - j]
  {
    i := start;
    ghost var spec := FractionDigits(cs, start);
    ghost var digits: seq<nat> := [];
    reversed := [];
    while ParseUsize(cs[i]).Some?
      invariant i < |cs|
      invariant spec.0 == digits + FractionDigits(cs, i).0 && spec.1 == FractionDigits(cs, i).1
      invariant |reversed| == |digits| && forall j :: 0 <= j < |reversed| ==> reversed[j] == digits[|digits| - 1 - j]
      decreases |cs| - i
    {
      FractionStep(cs, i);
      var num := ParseUsize(cs[i]).value;
      digits := digits + [num];
      reversed := [num] + reversed;
      i := i + 1;  // consume_char
    }
    assert FractionDigits(cs, i).0 == [];
    assert digits == spec.0;
  }

  /**
   * The second loop of `parse_float`: `decimal = (decimal + d) / 10` over the
   * reversed digits, which is the value of the fraction in reading order.
   */
  method FoldFraction(reversed: seq<nat>) returns (decimal: real)
    ensures forall ds: seq<nat> | |ds| == |reversed| && (forall j :: 0 <= j < |ds| ==> reversed[j] == ds[|ds| - 1 - j]) ::
      decimal == FractionValue(ds)
  {
    decimal := 0.0;
    for k := 0 to |reversed|
      invariant forall ds: seq<nat> | |ds| == |reversed| && (forall j :: 0 <= j < |ds| ==> reversed[j] == ds[|ds| - 1 - j]) ::
        decimal == FractionValue(ds[|ds| - k..])
    {
      forall ds: seq<nat> | |ds| == |reversed| && (forall j :: 0 <= j < |ds| ==> reversed[j] == ds[|ds| - 1 - j])
        ensures (decimal + reversed[k] as real) / 10.0 == FractionValue(ds[|ds| - k - 1..])
      {
        assert ds[|ds| - k - 1..][1..] == ds[|ds| - k..];
        assert reversed[k] == ds[|ds| - 1 - k];
      }
      decimal := (decimal + reversed[k] as real) / 10.0;
    }
    forall ds: seq<nat> | |ds| == |reversed| && (forall j :: 0 <= j < |ds| ==> reversed[j] == ds[|ds| - 1 - j])
      ensures decimal == FractionValue(ds)
    {
      assert ds[|ds| - |reversed|..] == ds;
    }
  }

  /** `tokens` followed by a successful rest; a failure passes through. */
  function Then(tokens: seq<Token>, rest: Result<seq<Token>>): Result<seq<Token>>
  {
    if rest.Ok? then Ok(tokens + rest.value) else rest
  }

  /** Adding tokens in two goes is adding them in one. */
  lemma ThenThen(a: seq<Token>, b: seq<Token>, rest: Result<seq<Token>>)
    ensures Then(a, Then(b, rest)) == Then(a + b, rest)
  {
    if rest.Ok? {
      assert a + (b + rest.value) == (a + b) + rest.value;
    }
  }

  /** The lexer's fields, updated in place by its handlers as in the source. */
  class Lexer {
    var characters: seq<string>
    var numChars: nat
    var tokens: seq<Token>
    var line: nat
    var lexemeStart: nat
    var index: nat

    /** The grapheme list carries its sentinel and `numChars` is its length. */
    predicate Valid()
      reads this
    {
      Sentinelled(characters) && numChars == |characters|
    }

    /** The fields after `lex_code` has pushed the sentinel and measured the list. */
    constructor (graphemes: seq<string>)
      ensures Valid() && characters == graphemes + [" "]
      ensures tokens == [] && line == 1 && index == 0
    {
      characters := graphemes + [" "];
      numChars := |graphemes| + 1;
      tokens := [];
      line := 1;
      lexemeStart := 0;
      index := 0;
    }

    method ConsumeChar()
      modifies this
      ensures index == old(index) + 1
      ensures characters == old(characters) && numChars == old(numChars)
      ensures tokens == old(tokens) && line == old(line) && lexemeStart == old(lexemeStart)
    {
      index := index + 1;
    }

    method AddToken(t: TokenType, literal: Option<Object>)
      modifies this
      ensures tokens == old(tokens) + [Token(t, line, literal)]
      ensures characters == old(characters) && numChars == old(numChars)
      ensures index == old(index) && line == old(line) && lexemeStart == old(lexemeStart)
    {
      tokens := tokens + [Token(t, line, literal)];
    }

    /** `match_next`. */
    method MatchNextChar(expected: string) returns (matched: bool)
      requires Valid() && index < numChars
      modifies this
      ensures matched == MatchNext(old(characters), old(index), expected)
      ensures index == old(index) + (if matched then 1 else 0)
      ensures characters == old(characters) && numChars == old(numChars)
      ensures tokens == old(tokens) && line == old(line)
    {
      var atEnd := index == numChars;
      var correct := characters[index] == expected;
      if !atEnd && correct {
        ConsumeChar();
        matched := true;
      } else {
        matched := false;
      }
    }

    /** A handler's effect: the cursor, line and tokens described by `s`. */
    predicate Did(s: Scan, before: seq<Token>)
      reads this
    {
      index == s.index && line == s.line && tokens == before + s.emitted
    }

    /** `plus`, `exclamation`, `greater` and `less`. */
    method PairOrSingle(next: string, pair: TokenType, single: TokenType)
      requires Valid() && index < numChars
      modifies this
      ensures Valid() && characters == old(characters)
      ensures Did(Choice(old(characters), old(index), old(line), next, pair, single), old(tokens))
    {
      var m := MatchNextChar(next);
      if m {
        AddToken(pair, None);
      } else {
        AddToken(single, None);
      }
    }

    /** `equal`. */
    method EqualSign()
      requires Valid() && index < numChars
      modifies this
      ensures Valid() && characters == old(characters)
      ensures Did(Equal(old(characters), old(index), old(line)), old(tokens))
    {
      var m := MatchNextChar("=");
      if m {
        AddToken(TokenType.EqualEqual, None);
      } else {
        m := MatchNextChar(">");
        if m {
          AddToken(TokenType.FatArrow, None);
        } else {
          AddToken(TokenType.Assign, None);
        }
      }
    }

    /** `slash`. */
    method SlashOrComment()
      requires Valid() && index < numChars
      modifies this
      ensures Valid() && characters == old(characters)
      ensures Did(SlashToken(old(characters), old(index), old(line)), old(tokens))
    {
      var m := MatchNextChar("/");
      if m {
        while !Peek(characters, index, "\n") && index < numChars
          invariant Valid() && characters == old(characters) && tokens == old(tokens) && line == old(line)
          invariant old(index) < index <= numChars
          invariant LineCommentEnd(characters, index) == LineCommentEnd(characters, old(index) + 1)
          decreases numChars - index
        {
          ConsumeChar();
        }
      } else {
        m := MatchNextChar("*");
        if m {
          while !(Peek(characters, index, "*") && characters[index + 1] == "/") && index < numChars
            invariant Valid() && characters == old(characters) && tokens == old(tokens) && line == old(line)
            invariant old(index) < index <= numChars
            invariant BlockCommentEnd(characters, index) == BlockCommentEnd(characters, old(index) + 1)
            decreases numChars - index
          {
            ConsumeChar();
          }
          index := index + 2;
        } else {
          AddToken(TokenType.Slash, None);
        }
      }
    }

    /** `quote`. */
    method StringLiteral()
      requires Valid() && index <= numChars
      modifies this
      ensures Valid() && characters == old(characters)
      ensures Did(Quote(old(characters), old(index), old(line)), old(tokens))
    {
      lexemeStart := index;
      while !Peek(characters, index, "\"") && index < numChars
        invariant Valid() && characters == old(characters) && tokens == old(tokens) && lexemeStart == old(index)
        invariant old(index) <= index <= numChars
        invariant QuoteEnd(characters, index, line) == QuoteEnd(characters, old(index), old(line))
        decreases numChars - index
      {
        ConsumeChar();
        if Peek(characters, index, "\n") {
          line := line + 1;
        }
      }
      AddToken(TokenType.String, Some(Object.String(Join(characters[lexemeStart..index]))));
      ConsumeChar();
    }

    /** `parse_int`: the float flag and value of the digit run, or the overflow panic. */
    method ParseInt() returns (r: Result<(bool, nat)>)
      requires Valid() && 1 <= index <= numChars
      modifies this
      ensures Valid() && characters == old(characters) && tokens == old(tokens) && line == old(line)
      ensures var spec := IntRun(old(characters), old(index), false, 0);
        spec.Ok? == r.Ok? && (r.Ok? ==> r.value == (spec.value.0, spec.value.1) && index == spec.value.2)
        && (!r.Ok? ==> r == spec.PropagateFailure())
    {
      var cs := characters;
      var i: nat := index;
      var isFloat := false;
      var acc: nat := 0;
      ghost var spec := IntRun(cs, i, false, 0);
      while ParseUsize(cs[i - 1]).Some?
        invariant Sentinelled(cs) && 1 <= i <= |cs| && acc < USIZE_LIMIT
        invariant IntRun(cs, i, isFloat, acc) == spec
        modifies {}
        decreases |cs| - i
      {
        var num := ParseUsize(cs[i - 1]).value;
        ghost var wasFloat := isFloat;
        if cs[i] == "." {
          if ParseUsize(cs[i + 1]).Some? {
            isFloat := true;
          }
        }
        if acc * 10 >= USIZE_LIMIT {
          assert spec == Panic("attempt to multiply with overflow");
          return Panic("attempt to multiply with overflow");
        }
        if acc * 10 + num >= USIZE_LIMIT {
          assert spec == Panic("attempt to add with overflow");
          return Panic("attempt to add with overflow");
        }
        IntRunStep(cs, i, wasFloat, acc, isFloat, acc * 10 + num);
        acc := acc * 10 + num;
        i := i + 1;  // consume_char
      }
      assert spec == Ok((isFloat, acc, i));
      index := i;
      r := Ok((isFloat, acc));
    }

    /**
     * `parse_float`: collects the digit values under the cursor, most recent
     * first, then folds them into the fraction and adds the Float token.
     */
    method ParseFloat(whole: nat)
      requires Valid() && index < numChars
      modifies this
      ensures Valid() && characters == old(characters) && line == old(line)
      ensures index == FractionDigits(old(characters), old(index)).1
      ensures tokens == old(tokens) +
        [Token(TokenType.Float, line, Some(Object.Float(whole as real + FractionValue(FractionDigits(old(characters), old(index)).0))))]
    {
      var reversed, next := CollectFraction(characters, index);
      index := next;
      var decimal := FoldFraction(reversed);
      AddToken(TokenType.Float, Some(Object.Float(whole as real + decimal)));
    }

    /** `number`. */
    method NumberLiteral(c: string) returns (r: Result<()>)
      requires Valid() && 1 <= index <= numChars && c == characters[index - 1]
      modifies this
      ensures Valid() && characters == old(characters)
      ensures var spec := Number(old(characters), old(index), old(line), c);
        spec.Ok? == r.Ok? && (r.Ok? ==> Did(spec.value, old(tokens))) && (!r.Ok? ==> r == spec.PropagateFailure())
    {
      if ParseUsize(c).Some? {
        IntRunFacts(characters, index, false, 0);
        var run := ParseInt();
        if !run.Ok? {
          return run.PropagateFailure();
        }
        var (isFloat, whole) := run.value;
        if isFloat {
          ParseFloat(whole);
        } else {
          AddToken(TokenType.Int, Some(Object.Int(whole)));
          index := index - 1;
        }
      }
      r := Ok(());
    }

    /** `keyword_identifier`. */
    method Word(c: string)
      requires Valid() && index <= numChars
      requires First(c).Some? && IsAlphabetic(First(c).value) ==> index < numChars
      modifies this
      ensures Valid() && characters == old(characters)
      ensures Did(KeywordIdentifier(old(characters), old(index), old(line), c), old(tokens))
    {
      if |c| > 0 && IsAlphabetic(c[0]) {
        var word := [c[0]];
        while |characters[index]| > 0
          invariant Valid() && characters == old(characters) && tokens == old(tokens) && line == old(line)
          invariant old(index) <= index < numChars
          invariant WordEnd(characters, index, word) == WordEnd(characters, old(index), [c[0]])
          decreases numChars - index
        {
          var ch := characters[index][0];
          ConsumeChar();
          if IsAlphanumeric(ch) || ch == '_' {
            word := word + [ch];
          } else {
            index := index - 1;
            break;
          }
        }
        AddToken(WordToken(word, line).tokenType, WordToken(word, line).literal);
      }
    }

    /** `match_character`. */
    method Character(c: string) returns (r: Result<()>)
      requires Valid() && 1 <= index <= numChars && c == characters[index - 1]
      modifies this
      ensures Valid() && characters == old(characters)
      ensures var spec := MatchCharacter(old(characters), old(index), old(line), c);
        spec.Ok? == r.Ok? && (r.Ok? ==> Did(spec.value, old(tokens))) && (!r.Ok? ==> r == spec.PropagateFailure())
    {
      r := Ok(());
      if c == " " || c == "\r" || c == "\t" {
      } else if c == "\n" {
        line := line + 1;
      } else if SingleToken(c).Some? {
        AddToken(SingleToken(c).value, None);
      } else if c == "+" {
        PairOrSingle("-", TokenType.PlusMinus, TokenType.Plus);
      } else if c == "=" {
        EqualSign();
      } else if c == "!" {
        PairOrSingle("=", TokenType.NotEqual, TokenType.Not);
      } else if c == ">" {
        PairOrSingle("=", TokenType.GreaterThanEqual, TokenType.GreaterThan);
      } else if c == "<" {
        PairOrSingle("=", TokenType.LessThanEqual, TokenType.LessThan);
      } else if c == "/" {
        SlashOrComment();
      } else if c == "\"" {
        StringLiteral();
      } else {
        ghost var before := tokens;
        r := NumberLiteral(c);
        if r.Ok? {
          ghost var n := Number(old(characters), old(index), old(line), c);
          ghost var mid := tokens;
          Word(c);
          assert tokens == before + n.value.emitted + KeywordIdentifier(old(characters), n.value.index, old(line), c).emitted;
        }
      }
    }

    /** `lex_code`: runs the handlers until the cursor passes the end, then adds EOF. */
    method LexCode() returns (r: Result<()>)
      requires Valid() && index == 0 && tokens == []
      modifies this
      ensures var spec := LexFrom(old(characters), 0, old(line));
        spec.Ok? == r.Ok? && (r.Ok? ==> tokens == spec.value) && (!r.Ok? ==> r == spec.PropagateFailure())
    {
      assert Then(tokens, LexFrom(characters, index, line)) == LexFrom(characters, 0, old(line)) by {
        assert tokens == [];
        var r := LexFrom(characters, 0, old(line));
        assert r.Ok? ==> [] + r.value == r.value;
      }
      while index < numChars
        invariant Valid() && characters == old(characters)
        invariant LexFrom(characters, 0, old(line)) == Then(tokens, LexFrom(characters, index, line))
        decreases Remaining(characters, index)
      {
        LexFromStep(characters, index, line);
        var c := characters[index];
        ConsumeChar();
        ghost var before := tokens;
        var status := Character(c);
        if !status.Ok? {
          return status;
        }
        ThenThen(before, tokens[|before|..], LexFrom(characters, index, line));
        assert before + tokens[|before|..] == tokens;
      }
      AddToken(TokenType.EOF, None);
      r := Ok(());
    }
  }

  /** `Lexer::lex` run on the class; it agrees with the function `Lex`. */
  method LexSource(graphemes: seq<string>) returns (r: Result<seq<Token>>)
    ensures r == Lex(graphemes)
  {
    var lexer := new Lexer(graphemes);
    var status := lexer.LexCode();
    if status.Ok? {
      r := Ok(lexer.tokens);
    } else {
      r := status.PropagateFailure();
    }
  }
}
