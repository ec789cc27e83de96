/**
 * Properties of the Hawk lexer model: the shape of the token list (one EOF,
 * at the end; lines never decrease), the whitespace, operator and comment
 * handlers, keywords and identifiers, integer and string literals.
 */
module LexerFacts {
  import opened Outcomes
  import opened Common
  import opened Lexing

  /** No token before the last is EOF, and the last one is. */
  predicate OneEofAtEnd(ts: seq<Token>)
  {
    |ts| > 0 && ts[|ts| - 1].tokenType == TokenType.EOF
    && forall k :: 0 <= k < |ts| - 1 ==> ts[k].tokenType != TokenType.EOF
  }

  /** Every token is on `line` or later, and lines never decrease along the list. */
  predicate LinesFrom(ts: seq<Token>, line: nat)
  {
    (forall k :: 0 <= k < |ts| ==> ts[k].line >= line)
    && forall a, b :: 0 <= a < b < |ts| ==> ts[a].line <= ts[b].line
  }

  /** What one handler adds: non-EOF tokens, all on the line it ends on, which is not before its start. */
  predicate Emits(s: Scan, line: nat)
  {
    s.line >= line && forall k :: 0 <= k < |s.emitted| ==> s.emitted[k].line == s.line && s.emitted[k].tokenType != TokenType.EOF
  }

  lemma NumberEmits(cs: seq<string>, i: nat, line: nat, c: string)
    requires Sentinelled(cs) && 1 <= i <= |cs| && c == cs[i - 1]
    ensures var r := Number(cs, i, line, c); r.Ok? ==> Emits(r.value, line)
  {
  }

  lemma KeywordEmits(cs: seq<string>, i: nat, line: nat, c: string)
    requires Sentinelled(cs) && i <= |cs|
    requires First(c).Some? && IsAlphabetic(First(c).value) ==> i < |cs|
    ensures Emits(KeywordIdentifier(cs, i, line, c), line)
  {
  }

  /** Every handler emits only non-EOF tokens tagged with the current line, and never lowers the line. */
  lemma MatchCharacterEmits(cs: seq<string>, i: nat, line: nat, c: string)
    requires Sentinelled(cs) && 1 <= i <= |cs| && c == cs[i - 1]
    ensures var r := MatchCharacter(cs, i, line, c); r.Ok? ==> Emits(r.value, line)
  {
    var r := MatchCharacter(cs, i, line, c);
    if c == " " || c == "\r" || c == "\t" || c == "\n" || SingleToken(c).Some? {
    } else if c == "+" || c == "=" || c == "!" || c == ">" || c == "<" || c == "/" || c == "\"" {
    } else {
      var n := Number(cs, i, line, c);
      NumberEmits(cs, i, line, c);
      if n.Ok? {
        KeywordEmits(cs, n.value.index, line, c);
        var w := KeywordIdentifier(cs, n.value.index, line, c);
        assert r.value.emitted == n.value.emitted + w.emitted;
      }
    }
  }

  /** A handler's tokens followed by a well-formed rest are well formed. */
  lemma ConcatShape(s: Scan, line: nat, rest: seq<Token>)
    requires Emits(s, line) && OneEofAtEnd(rest) && LinesFrom(rest, s.line)
    ensures OneEofAtEnd(s.emitted + rest) && LinesFrom(s.emitted + rest, line)
  {
    var e := s.emitted;
    var ts := e + rest;
    forall a, b | 0 <= a < b < |ts|
      ensures ts[a].line <= ts[b].line
    {
      if b < |e| {
      } else if a < |e| {
        assert ts[b] == rest[b - |e|];
      } else {
        assert ts[a] == rest[a - |e|] && ts[b] == rest[b - |e|];
      }
    }
    forall k | 0 <= k < |ts|
      ensures ts[k].line >= line && (k < |ts| - 1 ==> ts[k].tokenType != TokenType.EOF)
    {
      if k >= |e| {
        assert ts[k] == rest[k - |e|];
      }
    }
  }

  /** `lex_code` from any cursor: exactly one EOF, at the end, and lines from `line` on, never decreasing. */
  lemma {:induction false} LexFromShape(cs: seq<string>, i: nat, line: nat)
    requires Sentinelled(cs)
    ensures var r := LexFrom(cs, i, line); r.Ok? ==> OneEofAtEnd(r.value) && LinesFrom(r.value, line)
    decreases Remaining(cs, i)
  {
    if i < |cs| {
      LexFromStep(cs, i, line);
      var s := MatchCharacter(cs, i + 1, line, cs[i]);
      if s.Ok? {
        MatchCharacterEmits(cs, i + 1, line, cs[i]);
        LexFromShape(cs, s.value.index, s.value.line);
        var rest := LexFrom(cs, s.value.index, s.value.line);
        if rest.Ok? {
          ConcatShape(s.value, line, rest.value);
        }
      }
    }
  }

  /** The token list of `Lexer::lex` ends with exactly one EOF token, and its lines start at 1 and never decrease. */
  lemma LexShape(graphemes: seq<string>)
    ensures var r := Lex(graphemes); r.Ok? ==> OneEofAtEnd(r.value) && LinesFrom(r.value, 1)
  {
    LexFromShape(graphemes + [" "], 0, 1);
  }

  /** A space, `\r` or `\t` adds no token; a newline adds none and moves to the next line. */
  lemma WhitespaceAndNewlines(cs: seq<string>, i: nat, line: nat)
    requires Sentinelled(cs) && i < |cs|
    ensures cs[i] == " " || cs[i] == "\r" || cs[i] == "\t" ==> LexFrom(cs, i, line) == LexFrom(cs, i + 1, line)
    ensures cs[i] == "\n" ==> LexFrom(cs, i, line) == LexFrom(cs, i + 1, line + 1)
  {
    LexFromStep(cs, i, line);
    var r := LexFrom(cs, i + 1, line);
    assert r.Ok? ==> [] + r.value == r.value;
    var r' := LexFrom(cs, i + 1, line + 1);
    assert r'.Ok? ==> [] + r'.value == r'.value;
  }

  /** The lexing of `op` followed by `next` at cursor `i`: `token` and the cursor after the pair or after `op`. */
  predicate LexesAs(cs: seq<string>, i: nat, line: nat, token: TokenType, width: nat)
    requires Sentinelled(cs)
  {
    LexFrom(cs, i, line) == Then([Plain(token, line)], LexFrom(cs, i + width, line))
  }

  /** `==`, `=>` and `=`. */
  lemma EqualOperators(cs: seq<string>, i: nat, line: nat)
    requires Sentinelled(cs) && i + 1 < |cs| && cs[i] == "="
    ensures cs[i + 1] == "=" ==> LexesAs(cs, i, line, TokenType.EqualEqual, 2)
    ensures cs[i + 1] == ">" ==> LexesAs(cs, i, line, TokenType.FatArrow, 2)
    ensures cs[i + 1] != "=" && cs[i + 1] != ">" ==> LexesAs(cs, i, line, TokenType.Assign, 1)
  {
    LexFromStep(cs, i, line);
  }

  /** `+` and `!` are handled by `match_next` on the grapheme after them. */
  lemma ChoiceHandlers(cs: seq<string>, i: nat, line: nat)
    requires Sentinelled(cs) && i + 1 < |cs|
    ensures cs[i] == "+" ==> MatchCharacter(cs, i + 1, line, cs[i]) == Ok(Choice(cs, i + 1, line, "-", TokenType.PlusMinus, TokenType.Plus))
    ensures cs[i] == "!" ==> MatchCharacter(cs, i + 1, line, cs[i]) == Ok(Choice(cs, i + 1, line, "=", TokenType.NotEqual, TokenType.Not))
  {
  }

  /** `>` and `<` are handled by `match_next` on the grapheme after them. */
  lemma ComparisonHandlers(cs: seq<string>, i: nat, line: nat)
    requires Sentinelled(cs) && i + 1 < |cs|
    ensures cs[i] == ">" ==> MatchCharacter(cs, i + 1, line, cs[i]) == Ok(Choice(cs, i + 1, line, "=", TokenType.GreaterThanEqual, TokenType.GreaterThan))
    ensures cs[i] == "<" ==> MatchCharacter(cs, i + 1, line, cs[i]) == Ok(Choice(cs, i + 1, line, "=", TokenType.LessThanEqual, TokenType.LessThan))
  {
  }

  /** A grapheme handled by `match_next` lexes as the pair token and skips two graphemes, or as the single one. */
  lemma ChoiceLexes(cs: seq<string>, i: nat, line: nat, next: string, pair: TokenType, single: TokenType)
    requires Sentinelled(cs) && i + 1 < |cs|
    requires MatchCharacter(cs, i + 1, line, cs[i]) == Ok(Choice(cs, i + 1, line, next, pair, single))
    ensures LexesAs(cs, i, line, if cs[i + 1] == next then pair else single, if cs[i + 1] == next then 2 else 1)
  {
    LexFromStep(cs, i, line);
  }

  /**
   * `<=`, `>=`, `!=` and `+-` as one token each when the second grapheme
   * follows, otherwise the one-grapheme `<`, `>`, `!` (Not) or `+`.
   */
  lemma PairedOperators(cs: seq<string>, i: nat, line: nat)
    requires Sentinelled(cs) && i + 1 < |cs|
    ensures cs[i] == "<" ==> LexesAs(cs, i, line, if cs[i + 1] == "=" then TokenType.LessThanEqual else TokenType.LessThan, if cs[i + 1] == "=" then 2 else 1)
    ensures cs[i] == ">" ==> LexesAs(cs, i, line, if cs[i + 1] == "=" then TokenType.GreaterThanEqual else TokenType.GreaterThan, if cs[i + 1] == "=" then 2 else 1)
    ensures cs[i] == "!" ==> LexesAs(cs, i, line, if cs[i + 1] == "=" then TokenType.NotEqual else TokenType.Not, if cs[i + 1] == "=" then 2 else 1)
    ensures cs[i] == "+" ==> LexesAs(cs, i, line, if cs[i + 1] == "-" then TokenType.PlusMinus else TokenType.Plus, if cs[i + 1] == "-" then 2 else 1)
  {
    ChoiceHandlers(cs, i, line);
    ComparisonHandlers(cs, i, line);
    if cs[i] == "<" {
      ChoiceLexes(cs, i, line, "=", TokenType.LessThanEqual, TokenType.LessThan);
    } else if cs[i] == ">" {
      ChoiceLexes(cs, i, line, "=", TokenType.GreaterThanEqual, TokenType.GreaterThan);
    } else if cs[i] == "!" {
      ChoiceLexes(cs, i, line, "=", TokenType.NotEqual, TokenType.Not);
    } else if cs[i] == "+" {
      ChoiceLexes(cs, i, line, "-", TokenType.PlusMinus, TokenType.Plus);
    }
  }

  /** A slash is handled by `slash`. */
  lemma SlashHandler(cs: seq<string>, i: nat, line: nat)
    requires Sentinelled(cs) && i + 1 < |cs| && cs[i] == "/"
    ensures MatchCharacter(cs, i + 1, line, cs[i]) == Ok(SlashToken(cs, i + 1, line))
  {
  }

  /** `//` adds no token and resumes on the next newline, or at the end. */
  lemma LineComment(cs: seq<string>, i: nat, line: nat)
    requires Sentinelled(cs) && i + 1 < |cs| && cs[i] == "/" && cs[i + 1] == "/"
    ensures LexFrom(cs, i, line) == LexFrom(cs, LineCommentEnd(cs, i + 2), line)
  {
    LexFromStep(cs, i, line);
    SlashHandler(cs, i, line);
    var a := LexFrom(cs, LineCommentEnd(cs, i + 2), line);
    assert a.Ok? ==> [] + a.value == a.value;
  }

  /** A block comment adds no token and resumes two graphemes after the star of its star-slash. */
  lemma BlockComment(cs: seq<string>, i: nat, line: nat)
    requires Sentinelled(cs) && i + 1 < |cs| && cs[i] == "/" && cs[i + 1] == "*"
    ensures LexFrom(cs, i, line) == LexFrom(cs, BlockCommentEnd(cs, i + 2) + 2, line)
  {
    LexFromStep(cs, i, line);
    SlashHandler(cs, i, line);
    var b := LexFrom(cs, BlockCommentEnd(cs, i + 2) + 2, line);
    assert b.Ok? ==> [] + b.value == b.value;
  }

  /** Any other slash is a Slash token. */
  lemma LoneSlash(cs: seq<string>, i: nat, line: nat)
    requires Sentinelled(cs) && i + 1 < |cs| && cs[i] == "/" && cs[i + 1] != "/" && cs[i + 1] != "*"
    ensures LexesAs(cs, i, line, TokenType.Slash, 1)
  {
    LexFromStep(cs, i, line);
    SlashHandler(cs, i, line);
  }

  /** The line comment scan stops on the first newline after the cursor, or at the end. */
  lemma {:induction false} LineCommentStops(cs: seq<string>, i: nat)
    requires i <= |cs|
    ensures var j := LineCommentEnd(cs, i);
      (j == |cs| || cs[j] == "\n") && forall k :: i <= k < j ==> cs[k] != "\n"
    decreases |cs| - i
  {
    if i < |cs| && cs[i] != "\n" {
      LineCommentStops(cs, i + 1);
    }
  }

  /** The block comment scan stops on the first star-slash pair after the cursor, or at the end. */
  lemma {:induction false} BlockCommentStops(cs: seq<string>, i: nat)
    requires Sentinelled(cs) && i <= |cs|
    ensures var j := BlockCommentEnd(cs, i);
      (j == |cs| || ClosesComment(cs, j)) && forall k :: i <= k < j ==> !ClosesComment(cs, k)
    decreases |cs| - i
  {
    if i < |cs| && !ClosesComment(cs, i) {
      BlockCommentStops(cs, i + 1);
    }
  }

  /** The keywords of `match_keyword_identifier`. */
  const Keywords: set<string> := {
    "if", "else", "loop", "while", "for", "break", "class", "super", "this", "let", "null",
    "function", "return", "print", "true", "false", "or", "and", "not", "import", "process"
  }

  /**
   * A word is a keyword token exactly when it is listed; `true` and `false`
   * carry their Boolean; any other word is an Identifier carrying the word.
   */
  lemma WordTokens(word: string, line: nat)
    ensures word !in Keywords <==> WordToken(word, line) == Token(TokenType.Identifier, line, Some(Object.Identifier(word)))
    ensures word == "true" ==> WordToken(word, line).literal == Some(Boolean(true))
    ensures word == "false" ==> WordToken(word, line).literal == Some(Boolean(false))
    ensures word == "let" ==> WordToken(word, line) == Plain(TokenType.Let, line)
  {
  }

  /** Every keyword is at least two letters long, so a one-letter word is an Identifier. */
  lemma OneLetterWords(word: string, line: nat)
    requires |word| == 1
    ensures WordToken(word, line) == Token(TokenType.Identifier, line, Some(Object.Identifier(word)))
  {
  }

  /** A word is every first character of the graphemes after the cursor while they are alphanumeric or `_`. */
  lemma {:induction false} WordIsMaximal(cs: seq<string>, i: nat, word: string)
    requires Sentinelled(cs) && i < |cs|
    ensures var (w, j) := WordEnd(cs, i, word);
      (forall k :: i <= k < j ==> |cs[k]| > 0 && (IsAlphanumeric(cs[k][0]) || cs[k][0] == '_'))
      && (|cs[j]| == 0 || !(IsAlphanumeric(cs[j][0]) || cs[j][0] == '_'))
    decreases |cs| - i
  {
    match First(cs[i])
    case None =>
    case Some(ch) =>
      if IsAlphanumeric(ch) || ch == '_' {
        assert cs[|cs| - 1][0] == ' ';
        WordIsMaximal(cs, i + 1, word + [ch]);
      }
  }

  /** A grapheme starting with a letter is handled by `keyword_identifier` alone. */
  lemma WordHandler(cs: seq<string>, i: nat, line: nat)
    requires Sentinelled(cs) && i + 1 < |cs| && |cs[i]| > 0 && IsAlphabetic(cs[i][0])
    ensures var (w, j) := WordEnd(cs, i + 1, [cs[i][0]]);
      MatchCharacter(cs, i + 1, line, cs[i]) == Ok(Scan(j, line, [WordToken(w, line)]))
  {
    assert ParseUsize(cs[i]).None?;
    assert SingleToken(cs[i]).None?;
    var n := Number(cs, i + 1, line, cs[i]);
    var w := KeywordIdentifier(cs, i + 1, line, cs[i]);
    assert n == Ok(Scan(i + 1, line, []));
    assert [] + w.emitted == w.emitted;
  }

  /** A grapheme starting with a letter begins a word: one keyword or Identifier token for the maximal word. */
  lemma WordsLexAsOneToken(cs: seq<string>, i: nat, line: nat)
    requires Sentinelled(cs) && i < |cs| && |cs[i]| > 0 && IsAlphabetic(cs[i][0])
    ensures i + 1 < |cs|
    ensures var (w, j) := WordEnd(cs, i + 1, [cs[i][0]]);
      LexFrom(cs, i, line) == Then([WordToken(w, line)], LexFrom(cs, j, line))
  {
    assert cs[|cs| - 1][0] == ' ';
    LexFromStep(cs, i, line);
    WordHandler(cs, i, line);
  }

  /** Each grapheme in `cs[a..b]` is one ASCII digit. */
  predicate DigitGraphemes(cs: seq<string>, a: nat, b: nat)
    requires a <= b <= |cs|
  {
    forall k :: a <= k < b ==> |cs[k]| == 1 && '0' <= cs[k][0] <= '9'
  }

  /** The digits of single-digit graphemes, joined, are ASCII digits. */
  lemma {:induction false} JoinedDigits(cs: seq<string>, a: nat, b: nat)
    requires a <= b <= |cs| && DigitGraphemes(cs, a, b)
    ensures |Join(cs[a..b])| == b - a
    ensures forall k :: 0 <= k < b - a ==> Join(cs[a..b])[k] == cs[a + k][0]
    decreases b - a
  {
    if b > a {
      JoinedDigits(cs, a, b - 1);
      assert cs[a..b][..b - a - 1] == cs[a..b - 1];
    }
  }

  /** The value of the joined digit graphemes `cs[a..b]`. */
  function RunValue(cs: seq<string>, a: nat, b: nat): nat
    requires a <= b <= |cs| && DigitGraphemes(cs, a, b)
  {
    JoinedDigits(cs, a, b);
    DigitsValue(Join(cs[a..b]))
  }

  /** Extending the run by one digit grapheme multiplies by ten and adds it. */
  lemma RunValueStep(cs: seq<string>, a: nat, b: nat)
    requires a < b <= |cs| && DigitGraphemes(cs, a, b)
    ensures RunValue(cs, a, b) == RunValue(cs, a, b - 1) * 10 + (cs[b - 1][0] as int - '0' as int)
    ensures RunValue(cs, a, b - 1) <= RunValue(cs, a, b)
  {
    JoinedDigits(cs, a, b);
    JoinedDigits(cs, a, b - 1);
    var s := Join(cs[a..b]);
    assert cs[a..b][..b - a - 1] == cs[a..b - 1];
    assert s == Join(cs[a..b - 1]) + cs[b - 1];
    assert s[..|s| - 1] == Join(cs[a..b - 1]);
  }

  /** `parse_int` over a run of single-digit graphemes: the run's decimal value, with the float flag unraised. */
  lemma {:induction false} IntRunValue(cs: seq<string>, a: nat, i: nat, k: nat)
    requires Sentinelled(cs) && 1 <= a <= i <= k <= |cs|
    requires DigitGraphemes(cs, a - 1, k - 1) && ParseUsize(cs[k - 1]).None?
    requires !(cs[k - 1] == "." && ParseUsize(cs[k]).Some?)
    requires RunValue(cs, a - 1, k - 1) < USIZE_LIMIT
    ensures RunValue(cs, a - 1, i - 1) <= RunValue(cs, a - 1, k - 1)
    ensures IntRun(cs, i, false, RunValue(cs, a - 1, i - 1)) == Ok((false, RunValue(cs, a - 1, k - 1), k))
    decreases k - i
  {
    if i < k {
      var acc := RunValue(cs, a - 1, i - 1);
      var acc' := RunValue(cs, a - 1, i);
      RunValueStep(cs, a - 1, i);
      IntRunValue(cs, a, i + 1, k);
      assert |cs[i - 1]| == 1 && '0' <= cs[i - 1][0] <= '9';
      assert !(cs[i] == "." && ParseUsize(cs[i + 1]).Some?) by {
        if i < k - 1 {
          assert |cs[i]| == 1 && '0' <= cs[i][0] <= '9';
        }
      }
      IntRunStep(cs, i, false, acc, false, acc');
    }
  }

  /** A single-digit grapheme is handled by `number`, and `keyword_identifier` then adds nothing. */
  lemma DigitHandler(cs: seq<string>, i: nat, line: nat)
    requires Sentinelled(cs) && i + 1 < |cs| && |cs[i]| == 1 && '0' <= cs[i][0] <= '9'
    ensures var n := Number(cs, i + 1, line, cs[i]);
      n.Ok? ==> MatchCharacter(cs, i + 1, line, cs[i]) == Ok(Scan(n.value.index, line, n.value.emitted))
    ensures !Number(cs, i + 1, line, cs[i]).Ok? ==> MatchCharacter(cs, i + 1, line, cs[i]) == Number(cs, i + 1, line, cs[i])
  {
    assert SingleToken(cs[i]).None?;
    var n := Number(cs, i + 1, line, cs[i]);
    if n.Ok? {
      assert n.value.emitted + [] == n.value.emitted;
    }
  }

  /** `number` on a digit run that is not followed by `.digit`: one Int token, and the cursor on the grapheme after the run. */
  lemma IntNumber(cs: seq<string>, i: nat, k: nat, line: nat)
    requires Sentinelled(cs) && i < k < |cs|
    requires DigitGraphemes(cs, i, k) && ParseUsize(cs[k]).None?
    requires !(cs[k] == "." && ParseUsize(cs[k + 1]).Some?)
    requires RunValue(cs, i, k) < USIZE_LIMIT
    ensures Number(cs, i + 1, line, cs[i]) == Ok(Scan(k, line, [Token(TokenType.Int, line, Some(Object.Int(RunValue(cs, i, k))))]))
  {
    assert DigitGraphemes(cs, i, i) && RunValue(cs, i, i) == 0 by {
      assert cs[i..i] == [];
    }
    IntRunValue(cs, i + 1, i + 1, k + 1);
    assert ParseUsize(cs[i]).Some?;
  }

  /**
   * A run of digit graphemes that is not followed by `.digit` is one Int token
   * holding the run's decimal value, and the lexer resumes on the grapheme after it.
   */
  lemma IntLiterals(cs: seq<string>, i: nat, k: nat, line: nat)
    requires Sentinelled(cs) && i < k <= |cs|
    requires DigitGraphemes(cs, i, k) && ParseUsize(cs[k]).None?
    requires !(cs[k] == "." && ParseUsize(cs[k + 1]).Some?)
    requires RunValue(cs, i, k) < USIZE_LIMIT
    ensures LexFrom(cs, i, line) == Then([Token(TokenType.Int, line, Some(Object.Int(RunValue(cs, i, k))))], LexFrom(cs, k, line))
  {
    LexFromStep(cs, i, line);
    IntNumber(cs, i, k, line);
    DigitHandler(cs, i, line);
  }

  /** A quote is handled by `quote`. */
  lemma QuoteHandler(cs: seq<string>, i: nat, line: nat)
    requires Sentinelled(cs) && i + 1 < |cs| && cs[i] == "\""
    ensures MatchCharacter(cs, i + 1, line, cs[i]) == Ok(Quote(cs, i + 1, line))
  {
  }

  /**
   * A string literal holds exactly the graphemes between its quotes, joined,
   * and lexing resumes after the closing quote.
   */
  lemma StringLiterals(cs: seq<string>, i: nat, j: nat, line: nat)
    requires Sentinelled(cs) && i < j < |cs| && cs[i] == "\"" && cs[j] == "\""
    requires forall k :: i < k < j ==> cs[k] != "\""
    ensures var (end, l) := QuoteEnd(cs, i + 1, line);
      end == j
      && LexFrom(cs, i, line) == Then([Token(TokenType.String, l, Some(Object.String(Join(cs[i + 1..j]))))], LexFrom(cs, j + 1, l))
  {
    LexFromStep(cs, i, line);
    QuoteHandler(cs, i, line);
    QuoteStops(cs, i + 1, j, line);
  }

  /** The quote scan from `i` stops on the first quote at or after `i`. */
  lemma {:induction false} QuoteStops(cs: seq<string>, i: nat, j: nat, line: nat)
    requires i <= j < |cs| && cs[j] == "\"" && forall k :: i <= k < j ==> cs[k] != "\""
    ensures QuoteEnd(cs, i, line).0 == j
    decreases j - i
  {
    if i < j {
      QuoteStops(cs, i + 1, j, if Peek(cs, i + 1, "\n") then line + 1 else line);
    }
  }

  /**
   * Every grapheme is one character or the cluster `"\r\n"`, so none is the
   * two-character text of the `PlusMinus` arm of `SingleToken`: that arm never
   * matches a grapheme of a source.
   */
  lemma {:induction false} GraphemesMissPlusMinusArm(text: string)
    ensures forall k :: 0 <= k < |Graphemes(text)| ==> |Graphemes(text)[k]| == 1 || Graphemes(text)[k] == "\r\n"
    ensures forall k :: 0 <= k < |Graphemes(text)| ==> Graphemes(text)[k] != "\U{C2}\U{B1}"
    decreases |text|
  {
    if |text| >= 2 && text[0] == '\r' && text[1] == '\n' {
      GraphemesMissPlusMinusArm(text[2..]);
    } else if |text| > 0 {
      GraphemesMissPlusMinusArm(text[1..]);
    }
  }

  /** A real `±` reaches the default arm, which adds no token: lexing goes on as if it were absent. */
  lemma PlusMinusSignAddsNothing(cs: seq<string>, i: nat, line: nat)
    requires Sentinelled(cs) && i < |cs| && cs[i] == "\U{B1}"
    ensures LexFrom(cs, i, line) == LexFrom(cs, i + 1, line)
  {
    PlusMinusSignHandler(cs, i, line);
    LexFromStep(cs, i, line);
    var r := LexFrom(cs, i + 1, line);
    assert r.Ok? ==> [] + r.value == r.value;
  }

  lemma PlusMinusSignHandler(cs: seq<string>, i: nat, line: nat)
    requires Sentinelled(cs) && i < |cs| && cs[i] == "\U{B1}"
    ensures MatchCharacter(cs, i + 1, line, cs[i]) == Ok(Scan(i + 1, line, []))
  {
    assert SingleToken(cs[i]).None?;
    assert ParseUsize(cs[i]).None?;
    assert First(cs[i]) == Some('\U{B1}') && !IsAlphabetic('\U{B1}');
    assert Number(cs, i + 1, line, cs[i]) == Ok(Scan(i + 1, line, []));
    assert KeywordIdentifier(cs, i + 1, line, cs[i]) == Scan(i + 1, line, []);
    var none: seq<Token> := [];
    assert none + none == none;
    assert NumberKeywordIdentifier(cs, i + 1, line, cs[i]) == Ok(Scan(i + 1, line, []));
    assert cs[i] != " " && cs[i] != "\r" && cs[i] != "\t" && cs[i] != "\n" && cs[i] != "+" && cs[i] != "=";
    assert cs[i] != "!" && cs[i] != ">" && cs[i] != "<" && cs[i] != "/" && cs[i] != "\"";
  }
}
