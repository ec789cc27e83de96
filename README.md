# Hawk, modelled in Dafny

Hawk is a small scripting language for physics and data work. Its interpreter is written in Rust and compiled to WebAssembly, and a web page runs it. This project models the path a program takes through that stack; the other components are listed under "Left out":

- **The page.** `hawk_interface.ts` holds an append-only output log and an ordered list of virtual files. `hawk_layer.ts` keeps two interpreter handles: a persistent REPL handle and a script handle that is cleared after every run.
- **The wasm entry point.** `run` in `hawk-wasm/src/lib.rs` gives the interpreter five callbacks over the page's arrays and reports an error the interpreter returns.
- **The language front end.** These are the lexer and the recursive-descent parser of `lib/`.
- **The interpreter.** This covers `interpret`, `run` and `run_script`, the statement runner, the expression evaluator with function and finder calls, the type-dispatched operators, the equality of values, the Rust half of the standard library and its lookup order, and the CSV datatable codec with its lexer.
- **The solvers.** These are the placeholder equation solver that finder calls use, as written and as its tests describe it, and the `contains` queries of the computer-algebra crate.

Each piece takes the form of its source:

- **Pure code** is modelled as datatypes and functions. Examples are the token and tree types, the operators, equality, the solver and the CSV writer.
- **Code that updates structures in place** is modelled as classes with `modifies` clauses:
  - the lexers and the parser, with their cursors;
  - the page's `Interface` and the two handles;
  - the `Interpreter`, with its globals, scope stack, loop counter and line.

  Each method of these classes is proved to leave the state that a specification function gives. For the Interpreter these functions are the `Semantics` module. The lemmas of `SemanticsFacts`, `LexerFacts`, `ParserFacts` and `OperationFacts` prove what the source promises about those functions. The `SemanticsSteps` lemmas are one-step unfoldings that the methods use.

A Rust code path can come back three ways:

- `Ok`, a value;
- `Err`, an error with a message and a line, which the source reports;
- `Stop`, a halt: a Rust panic (arithmetic overflow in a build with overflow checks on, an index out of bounds, `loops` going below zero), a parser loop that makes no progress, the exhaustion of the model's fuel, or a path the model leaves out.

Panics are outcomes, not preconditions, because a user's program can reach them.

Some choices of representation:

- `Int` is the `i128` range.
- `usize` is 32 bits wide, as on the wasm32 target of the page.
- `x as i64` and `x as usize` wrap explicitly.
- Integer `/` rounds toward zero, as in Rust.

The host is a type parameter `W` of the interpreter: its callbacks are functions from the host's state to the next state. The page instantiates `W` with the value of its two arrays.

Five details of the code shape the model:

- **No recovery.** `run_code` in `web/src/hawk_layer.ts:10-17` only calls `run`, followed by `clear` for scripts. It never discards or recreates a handle after a failure.
- **Partial callbacks.** The interpreter has error paths for a failed read and a failed write, so the model keeps the host's callbacks partial (`Option`). The page's own callbacks are proved never to fail (`WasmLib.HostCallbacksAct`).
- **`writefile`.** When the content is a String and the file name is not, the call returns an error, not Null (`interpreter/src/standard_lib/standard_lib_rs.rs:35-37`).
- **The `±` arm.** `match_character` spells its `±` arm with the UTF-8 bytes of `Â±` (`lib/src/lexer.rs:59`), two characters, so no grapheme matches it. A real `±` adds no token (`LexerFacts.PlusMinusSignAddsNothing`), while `+-` lexes as `PlusMinus`. The test `end_to_end_let_uncertain` (`interpreter/src/test.rs:94-108`) expects `1 ± 0.1` to give an Uncertain. The model keeps the arm as written.
- **The finder's solver.** A finder call uses the equation solver as written, so an equation such as `2/x = 4` is the solver's error (see "Findings" for the solver the unit tests describe).

## Model

| member | source | states |
|---|---|---|
| Outcomes.ToI64 | interpreter/src/operations.rs:17-28 | `x as i64` keeps the value of an `i128` inside the `i64` range, and otherwise wraps it modulo 2^64 into that range |
| Outcomes.ToUsize | interpreter/src/statement.rs:92-98 | `x as usize` on the 32-bit target keeps an index below 2^32 and otherwise wraps it modulo 2^32 |
| Outcomes.TruncDiv | interpreter/src/operations.rs:221 | Rust's integer `/` rounds toward zero: it agrees with floor division for non-negative operands, and its sign is the sign of the exact quotient |
| Common.IntToDecimal | interpreter/src/operations.rs:17-28 | `Decimal::from(x as i64)` is the exact value of an Int inside the `i64` range |
| HawkInterface.Emit | web/src/hawk-wasm/hawk_interface.ts:29-39 | `print`, `warn` and `error` add exactly one entry of their kind at the end of the log; earlier entries and the files stay as they were |
| HawkInterface.Store | web/src/hawk-wasm/hawk_interface.ts:41-43 | `writefile` appends the record unconditionally: the file list grows by exactly one, whether or not the name exists, and the log is untouched |
| HawkInterface.FindContentFirstMatch | web/src/hawk-wasm/hawk_interface.ts:45-53 | `readfile` gives the content of the first record with that name |
| HawkInterface.FindContentMissing | web/src/hawk-wasm/hawk_interface.ts:54 | `readfile` gives `""` when no record has the name |
| HawkInterface.ReadAfterWrite | web/src/hawk-wasm/hawk_interface.ts:41-55 | after `writefile`, reading a name that already had a record still finds the old record; reading the new name finds the new content; any other missing name still reads `""` |
| HawkInterface.Interface.constructor | web/src/hawk-wasm/hawk_interface.ts:19-27 | the log starts empty; the files are the stored list when one is saved, otherwise the single empty `main.hawk` |
| HawkInterface.Interface.Print | web/src/hawk-wasm/hawk_interface.ts:29-31 | the page's state becomes `Emit(old, message, Print)` |
| HawkInterface.Interface.Warn | web/src/hawk-wasm/hawk_interface.ts:33-35 | the page's state becomes `Emit(old, message, Warn)` |
| HawkInterface.Interface.Error | web/src/hawk-wasm/hawk_interface.ts:37-39 | the page's state becomes `Emit(old, message, Err)` |
| HawkInterface.Interface.WriteFile | web/src/hawk-wasm/hawk_interface.ts:41-43 | the page's state becomes `Store(old, name, content)` |
| HawkInterface.Interface.ReadFile | web/src/hawk-wasm/hawk_interface.ts:45-55 | the scan loop returns `FindContent(files, name)` and changes nothing |
| HawkLayer.Runner.Run | web/src/hawk_layer.ts:11-13 | a handle records one `run(code, in_repl)` call |
| HawkLayer.Runner.Clear | web/src/hawk_layer.ts:14 | a handle records one `clear()` call |
| HawkLayer.BatchesExtend | web/src/hawk_layer.ts:13-16 | a script run followed by a clear keeps the script handle's history a sequence of run-then-clear pairs |
| HawkLayer.Layer.constructor | web/src/hawk_layer.ts:6-8 | two distinct handles, created once (`const` fields, never reassigned), with empty histories |
| HawkLayer.Layer.RunCode | web/src/hawk_layer.ts:10-17 | REPL code reaches only the REPL handle as `run(code, true)` and the script handle is untouched; script code reaches only the script handle as `run(code, false)` then `clear()`; the REPL handle is never cleared |
| WasmLib.Tagged | web/src/hawk-wasm/src/lib.rs:25-39 | line 0 gives `word + ": " + message`; any other line gives `word + " on line " + <decimal line> + ": " + message` |
| WasmLib.DigitRun | web/src/hawk-wasm/src/lib.rs:29 | the length of the leading digit run of a report text: all those characters are digits and the next one is not |
| WasmLib.DigitRunOf | web/src/hawk-wasm/src/lib.rs:29 | a run of digits followed by a non-digit is read back as exactly those digits |
| WasmLib.TaggedRoundTrip | web/src/hawk-wasm/src/lib.rs:25-39 | the report format is unambiguous: the message and the line number are recovered from every report, whatever the message holds |
| WasmLib.ReportsReadBack | web/src/hawk-wasm/src/lib.rs:25-39 | `warn_fn` and `err_fn` texts read back as their message and line, and a warning never reads as an error |
| WasmLib.WarningIsNoError | web/src/hawk-wasm/src/lib.rs:25-39 | no `warn_fn` text has the form of an `err_fn` text |
| WasmLib.HostCallbacksAct | web/src/hawk-wasm/src/lib.rs:16-41 | `filein_fn` never fails and gives `readfile(name)`; `fileout_fn` appends the file and succeeds; `output_fn` forwards the message unchanged to `print`; `warn_fn` and `err_fn` each add exactly one entry of their kind; none of them touches the other array |
| WasmLib.BrowserRunReports | web/src/hawk-wasm/src/lib.rs:44-47 | `run` starts from an empty global map and never returns an error: an interpreter error is reported exactly once, as the last log entry, in the `err_fn` form that reads back as its message and line; a successful run adds nothing after the interpreter |
| WasmLib.Run | web/src/hawk-wasm/src/lib.rs:15-48 | running on the page's arrays leaves them as `BrowserRun` of their old contents |
| Lexing.DigitsFrom | lib/src/lexer.rs:125 | the value of a run of ASCII digits; a one-character run is a digit exactly when it has a value, and that value is the digit's |
| Lexing.ParseUsize | lib/src/lexer.rs:125 | `parse::<usize>()` on one grapheme succeeds only on an optional `+` then digits, with a value below the 32-bit limit; a one-character grapheme parses exactly when it is a digit, to that digit |
| Lexing.First | lib/src/lexer.rs:105 | `chars().nth(0)` is present exactly for a non-empty grapheme, and is its first character |
| Lexing.Choice | lib/src/lexer.rs:232-256 | `less`, `greater`, `exclamation` and `plus` add exactly one literal-less token on the current line: the pair token, consuming the next grapheme, when it is the expected one, otherwise the single token without consuming |
| Lexing.Equal | lib/src/lexer.rs:259-267 | `==` gives EqualEqual, `=>` gives FatArrow, each consuming the second grapheme; anything else gives Assign without consuming |
| Lexing.LineCommentEnd | lib/src/lexer.rs:218-220 | the line comment scan never moves backwards or past the end |
| Lexing.BlockCommentEnd | lib/src/lexer.rs:222-224 | the block comment scan never moves backwards or past the end |
| Lexing.SlashToken | lib/src/lexer.rs:216-229 | `slash` never moves the cursor backwards |
| Lexing.QuoteEnd | lib/src/lexer.rs:205-210 | the string scan stays within the graphemes and never lowers the line |
| Lexing.Quote | lib/src/lexer.rs:203-213 | `quote` always adds exactly one String token, on the line where the string ends, and moves past the closing quote |
| Lexing.GraphemesJoin | lib/src/lexer.rs:18 | the grapheme clusters of a text, joined, give the text back |
| Lexing.JoinAppend | lib/src/lexer.rs:211 | joining two lists of graphemes is joining each and concatenating |
| Lexing.IntRun | lib/src/lexer.rs:138-153 | `parse_int` either succeeds, leaving the cursor within the graphemes, or panics on `usize` overflow; it never reports an error |
| Lexing.IntRunFacts | lib/src/lexer.rs:138-153 | after `parse_int` the value fits in `usize` and the cursor is one past the first non-digit; a raised float flag means a `.` followed by a digit ends the run |
| Lexing.IntRunStep | lib/src/lexer.rs:142-151 | one round of `parse_int`: the accumulator becomes `acc * 10 + digit`, and the flag is raised exactly by a `.digit` lookahead |
| Lexing.FractionDigits | lib/src/lexer.rs:160-163 | `parse_float`'s scan collects one digit per grapheme passed and stops before the sentinel |
| Lexing.FractionDigitsFacts | lib/src/lexer.rs:160-163 | the fraction scan stops on a non-digit and records the value of every digit it passed, in order |
| Lexing.FractionStep | lib/src/lexer.rs:160-163 | one round of the fraction scan adds the digit under the cursor in front of the rest |
| Lexing.CollectFraction | lib/src/lexer.rs:157-163 | the first loop of `parse_float` leaves the digits of the scan in reverse order and the cursor where the scan stops |
| Lexing.FoldFraction | lib/src/lexer.rs:165-167 | folding the reversed digits with `(decimal + d) / 10` gives the exact value of `0.d1d2…dn` in reading order |
| Lexing.Number | lib/src/lexer.rs:124-135 | a grapheme that is not a number leaves the lexer untouched; otherwise the cursor never moves backwards |
| Lexing.WordToken | lib/src/lexer.rs:175-199 | a word always becomes one non-EOF token on the current line |
| Lexing.WordEnd | lib/src/lexer.rs:108-116 | the word scan stops before the sentinel and never moves backwards |
| Lexing.KeywordIdentifier | lib/src/lexer.rs:104-121 | `keyword_identifier` never moves the cursor backwards |
| Lexing.NumberKeywordIdentifier | lib/src/lexer.rs:97-101 | `number` then `keyword_identifier` never moves the cursor backwards |
| Lexing.MatchCharacter | lib/src/lexer.rs:40-94 | no handler moves the cursor backwards |
| Lexing.LexFromStep | lib/src/lexer.rs:31-35 | one round of `lex_code`'s loop: the handler's tokens, then the lexing of the rest from its cursor and line; a panic ends the lexing |
| Lexing.ThenThen | lib/src/lexer.rs:320-322 | tokens added in two goes are the tokens added in one |
| Lexing.Lexer.ConsumeChar | lib/src/lexer.rs:310-312 | the cursor advances by one and nothing else changes |
| Lexing.Lexer.AddToken | lib/src/lexer.rs:320-322 | one token with the current line is appended and nothing else changes |
| Lexing.Lexer.MatchNextChar | lib/src/lexer.rs:279-290 | `match_next` consumes the grapheme exactly when it is the expected one |
| Lexing.Lexer.PairOrSingle | lib/src/lexer.rs:232-276 | the handler's effect on the fields is `Choice` |
| Lexing.Lexer.EqualSign | lib/src/lexer.rs:259-267 | the handler's effect is `Equal` |
| Lexing.Lexer.SlashOrComment | lib/src/lexer.rs:216-229 | the handler's effect is `SlashToken` |
| Lexing.Lexer.StringLiteral | lib/src/lexer.rs:203-213 | the handler's effect is `Quote` |
| Lexing.Lexer.ParseInt | lib/src/lexer.rs:138-153 | the loop's flag, value and cursor are those of `IntRun`, or its overflow panic |
| Lexing.Lexer.ParseFloat | lib/src/lexer.rs:156-172 | one Float token is added, holding the whole part plus the exact fraction of the scanned digits, with the cursor after them |
| Lexing.Lexer.NumberLiteral | lib/src/lexer.rs:124-135 | the handler's effect is `Number` |
| Lexing.Lexer.Word | lib/src/lexer.rs:104-121 | the handler's effect is `KeywordIdentifier` |
| Lexing.Lexer.Character | lib/src/lexer.rs:40-101 | the handler's effect is `MatchCharacter` |
| Lexing.Lexer.LexCode | lib/src/lexer.rs:26-38 | the tokens are those of `LexFrom` from the start of the sentinelled list, or its panic |
| Lexing.LexSource | lib/src/lexer.rs:17-23 | `Lexer::lex` on the class gives `Lex` of the graphemes |
| LexerFacts.NumberEmits | lib/src/lexer.rs:124-135 | `number` adds only non-EOF tokens on the current line |
| LexerFacts.KeywordEmits | lib/src/lexer.rs:104-121 | `keyword_identifier` adds only non-EOF tokens on the current line |
| LexerFacts.MatchCharacterEmits | lib/src/lexer.rs:40-94 | every handler adds only non-EOF tokens, each with the current line, and never lowers the line (also lines 320-322) |
| LexerFacts.ConcatShape | lib/src/lexer.rs:31-37 | a handler's tokens followed by a well-formed rest are well formed |
| LexerFacts.LexFromShape | lib/src/lexer.rs:31-37 | from any cursor the tokens end with exactly one EOF token, and their lines start at the current line and never decrease |
| LexerFacts.LexShape | lib/src/lexer.rs:17-37 | the token list of `Lexer::lex` ends with exactly one EOF token, after the scan, and its lines start at 1 and never decrease |
| LexerFacts.WhitespaceAndNewlines | lib/src/lexer.rs:42-45 | a space, `\r` or `\t` adds no token; `\n` adds none and moves to the next line |
| LexerFacts.GraphemesMissPlusMinusArm | lib/src/lexer.rs:59 | every grapheme of a source is one character or `\r\n`, so none equals the two-character `Â±` of the `PlusMinus` arm, which therefore never matches |
| LexerFacts.PlusMinusSignAddsNothing | lib/src/lexer.rs:59-92 | a real `±` passes every arm of `match_character` and reaches the default arm, which adds no token: lexing goes on as if it were absent |
| LexerFacts.EqualOperators | lib/src/lexer.rs:259-267 | `==` lexes as EqualEqual and `=>` as FatArrow over two graphemes; any other `=` is Assign over one |
| LexerFacts.ChoiceHandlers | lib/src/lexer.rs:63-73 | `+` and `!` go to `plus` and `exclamation` |
| LexerFacts.ComparisonHandlers | lib/src/lexer.rs:75-81 | `>` and `<` go to `greater` and `less` |
| LexerFacts.ChoiceLexes | lib/src/lexer.rs:232-290 | a `match_next` handler lexes as the pair token over two graphemes or as the single token over one |
| LexerFacts.PairedOperators | lib/src/lexer.rs:232-276 | `<=`, `>=`, `!=` and `+-` are one token each; otherwise `<`, `>`, `!` (Not) and `+` are single tokens |
| LexerFacts.SlashHandler | lib/src/lexer.rs:83-85 | `/` goes to `slash` |
| LexerFacts.LineComment | lib/src/lexer.rs:217-220 | `//` adds no token and lexing resumes at the next newline or at the end |
| LexerFacts.BlockComment | lib/src/lexer.rs:221-225 | a block comment adds no token and lexing resumes two graphemes after the star of its closing pair |
| LexerFacts.LoneSlash | lib/src/lexer.rs:226-228 | any other `/` is one Slash token |
| LexerFacts.LineCommentStops | lib/src/lexer.rs:218-220 | the line comment scan stops on the first newline after the cursor, or at the end |
| LexerFacts.BlockCommentStops | lib/src/lexer.rs:222-224 | the block comment scan stops on the first star-slash pair after the cursor, or at the end |
| LexerFacts.WordTokens | lib/src/lexer.rs:175-199 | a word is an Identifier carrying the word exactly when it is not a keyword; `true` and `false` carry their Boolean; `let` is the Let token |
| LexerFacts.OneLetterWords | lib/src/lexer.rs:175-199 | a one-letter word is always an Identifier |
| LexerFacts.WordIsMaximal | lib/src/lexer.rs:108-116 | the word takes every following grapheme that starts with an alphanumeric character or `_`, and stops at the first that does not |
| LexerFacts.WordHandler | lib/src/lexer.rs:97-121 | a grapheme starting with a letter adds exactly one keyword or Identifier token for its word |
| LexerFacts.WordsLexAsOneToken | lib/src/lexer.rs:97-121 | a maximal word lexes as one token, then lexing resumes after it (also lines 175-199) |
| LexerFacts.JoinedDigits | lib/src/lexer.rs:142-148 | single-digit graphemes, joined, are the digits one by one |
| LexerFacts.RunValueStep | lib/src/lexer.rs:148 | one more digit multiplies the value by ten and adds it |
| LexerFacts.IntRunValue | lib/src/lexer.rs:138-153 | `parse_int` over a digit run gives the run's decimal value, with the float flag down |
| LexerFacts.DigitHandler | lib/src/lexer.rs:97-101 | a digit goes to `number`, and `keyword_identifier` then adds nothing |
| LexerFacts.IntNumber | lib/src/lexer.rs:124-135 | `number` on a digit run not followed by `.digit` adds one Int token holding the run's value, with the cursor right after the run |
| LexerFacts.IntLiterals | lib/src/lexer.rs:124-153 | a digit run not followed by `.digit` is one Int token with the decimal value of its digits |
| LexerFacts.QuoteHandler | lib/src/lexer.rs:87-89 | `"` goes to `quote` |
| LexerFacts.StringLiterals | lib/src/lexer.rs:203-213 | a string token holds exactly the graphemes between the quotes, and lexing resumes after the closing quote |
| LexerFacts.QuoteStops | lib/src/lexer.rs:205 | the string scan stops on the first quote |
| Lexing.Lexer.constructor | lib/src/lexer.rs:18-27 | a new lexer holds the graphemes of the source followed by the space `lex_code` pushes, no tokens, line 1 and index 0 |
| Parsing.Expr | lib/src/parser.rs:141-266 | a binary level (or `unary`) that succeeds started on a token and never moves the cursor backwards |
| Parsing.LevelRest | lib/src/parser.rs:148-155 | the operator loop of a binary level never moves the cursor backwards |
| Parsing.UnaryAt | lib/src/parser.rs:268-280 | `unary` never moves the cursor backwards |
| Parsing.Items | lib/src/parser.rs:297-302 | the argument and item loops never move the cursor backwards (also lines 361-365) |
| Parsing.PrimaryAt | lib/src/parser.rs:282-372 | `primary` never moves the cursor backwards |
| Parsing.PostfixAt | lib/src/parser.rs:291-341 | a call, an index or a method call consumes at least the name |
| Parsing.GroupAt | lib/src/parser.rs:350-356 | a parenthesised equality consumes at least the `(` |
| Parsing.StatementAt | lib/src/parser.rs:24-139 | `statement` never moves the cursor backwards |
| Parsing.LetAt | lib/src/parser.rs:29-45 | a `let` statement consumes at least the keyword |
| Parsing.IfAt | lib/src/parser.rs:46-56 | an `if` statement consumes at least the keyword |
| Parsing.BlockRest | lib/src/parser.rs:70-80 | the block loop ends past the closing brace |
| Parsing.Params | lib/src/parser.rs:87-100 | the parameter loop never moves the cursor backwards |
| Parsing.FunctionAt | lib/src/parser.rs:82-109 | a `function` statement consumes at least the keyword |
| Parsing.ProcessAt | lib/src/parser.rs:112-118 | a `process` statement consumes at least the keyword |
| Parsing.OtherAt | lib/src/parser.rs:119-137 | the fallback arm never moves the cursor backwards |
| Parsing.Parser.ParseExpression | lib/src/parser.rs:141-143 | the outcome and the cursor are those of `Expr` at level 0 |
| Parsing.Parser.ParseLevel | lib/src/parser.rs:145-266 | each of the eight binary levels, and `unary`, gives `Expr` at its level |
| Parsing.Parser.ParseUnary | lib/src/parser.rs:268-280 | the outcome and the cursor are those of `UnaryAt` |
| Parsing.Parser.ParseItems | lib/src/parser.rs:295-302 | the loop gives `Items` (also lines 359-365) |
| Parsing.Parser.ParsePrimary | lib/src/parser.rs:282-372 | the outcome and the cursor are those of `PrimaryAt` |
| Parsing.Parser.ParsePostfix | lib/src/parser.rs:291-341 | the outcome and the cursor are those of `PostfixAt` |
| Parsing.Parser.ParseGroup | lib/src/parser.rs:350-356 | the outcome and the cursor are those of `GroupAt` |
| Parsing.Parser.ParseStatement | lib/src/parser.rs:24-139 | the outcome and the cursor are those of `StatementAt` |
| Parsing.Parser.ParseLet | lib/src/parser.rs:29-45 | the arm gives `LetAt` |
| Parsing.Parser.ParseIf | lib/src/parser.rs:46-56 | the arm gives `IfAt` |
| Parsing.Parser.ParseBlock | lib/src/parser.rs:69-81 | the loop gives `BlockRest`, and a statement that consumes nothing is divergence |
| Parsing.Parser.ParseFunction | lib/src/parser.rs:82-109 | the arm gives `FunctionAt` |
| Parsing.Parser.ParseParams | lib/src/parser.rs:88-100 | the loop gives `Params` |
| Parsing.Parser.ParseProcess | lib/src/parser.rs:112-118 | the arm gives `ProcessAt` |
| Parsing.Parser.ParseOther | lib/src/parser.rs:119-137 | the arm gives `OtherAt` |
| Parsing.Parser.Parse | lib/src/parser.rs:13-22 | `Parser::parse` gives `Parsed` of the tokens (also lines 374-376) |
| ParserFacts.LevelOf | lib/src/parser.rs:145-266 | every token has one level on the ladder, or none |
| ParserFacts.OperatorLevel | lib/src/parser.rs:145-266 | a token is an operator of a binary level exactly when that is its level: the levels are disjoint |
| ParserFacts.ExprStep | lib/src/parser.rs:146-255 | a binary level starts with the operand of the next tighter level |
| ParserFacts.LevelStep | lib/src/parser.rs:148-155 | an operator of the level folds one more operand into the left tree |
| ParserFacts.LevelStop | lib/src/parser.rs:148-157 | any other token ends the level, leaving the tree and the cursor |
| ParserFacts.AtomParses | lib/src/parser.rs:343-346 | a literal followed by no operator parses as itself at every level |
| ParserFacts.Lift | lib/src/parser.rs:141-266 | a tight-level expression that no looser operator follows is the whole expression |
| ParserFacts.LeftAssociative | lib/src/parser.rs:145-266 | at every binary level `a op b op c` is `(a op b) op c` |
| ParserFacts.TighterGroupsRight | lib/src/parser.rs:141-280 | for any two levels, `a loose b tight c` is `a loose (b tight c)` |
| ParserFacts.TighterGroupsLeft | lib/src/parser.rs:141-280 | for any two levels, `a tight b loose c` is `(a tight b) loose c` |
| ParserFacts.UnaryStep | lib/src/parser.rs:268-276 | a `-` or `!` prefix wraps the unary after it |
| ParserFacts.PrefixesNest | lib/src/parser.rs:268-280 | a run of prefixes before a literal nests one Unary node per prefix, the first outermost |
| ParserFacts.LetWithoutValue | lib/src/parser.rs:29-45 | `let x` without `=` is `Definition(x, Literal(Null))` |
| ParserFacts.LetWithValue | lib/src/parser.rs:29-45 | `let x = e` is `Definition(x, e)` |
| ParserFacts.IfOrIfElse | lib/src/parser.rs:46-56 | `if c S` is If unless `else` follows, which makes it IfElse with the statement after `else` |
| ParserFacts.Assignment | lib/src/parser.rs:119-131 | `name = e` at the start of a statement is a Definition |
| ParserFacts.ExpressionStatement | lib/src/parser.rs:132-135 | any other first token is read again as the start of an expression statement |
| ParserFacts.AppendFirst | lib/src/parser.rs:77 | pushing statements one by one is appending them |
| ParserFacts.BlockStep | lib/src/parser.rs:72-78 | one statement of a block is appended to the body |
| ParserFacts.BlockChain | lib/src/parser.rs:72-79 | a run of statements before the closing brace is appended in order |
| ParserFacts.BlockStatements | lib/src/parser.rs:69-81 | `{ S1 … Sn }` is `Block([S1 … Sn])`, with the closing brace consumed |
| ParserFacts.ParseStep | lib/src/parser.rs:17-19 | one statement of the program is appended |
| ParserFacts.ParseChain | lib/src/parser.rs:17-19 | a run of statements is appended in order |
| ParserFacts.ParseUntilEof | lib/src/parser.rs:13-22 | `parse` collects statements until the current token is EOF (also lines 374-376) |
| ParserFacts.NotPrefixDiverges | lib/src/parser.rs:268-280 | a program starting with the Not token the lexer makes for `!` never finishes parsing (also lines 369-371) |
| ParserFacts.NullAtEveryLevel | lib/src/parser.rs:369-371 | a Not token is `Literal(Null)` at every level and consumes nothing |
| Parsing.Parser.constructor | lib/src/parser.rs:14 | a new parser holds the tokens at index 0 |
| Cas.HasIffSymbol | cas/src/expression.rs:39-59 | `contains(v)` on an expression holds exactly when `v` is among the symbols of the tree |
| Cas.TermsHaveIffSymbol | cas/src/expression.rs:49-57 | a sum contains `v` exactly when `v` is a symbol of one of its terms |
| Cas.TermHasIffSymbol | cas/src/term.rs:27-41 | a term contains `v` exactly when `v` is among its symbols |
| Cas.FactorsHaveIffSymbol | cas/src/term.rs:29-37 | a product contains `v` exactly when `v` is a symbol of one of its factors |
| Cas.FactorHasIffSymbol | cas/src/factor.rs:20-25 | a factor contains `v` exactly when `v` is among its symbols |
| Cas.Contains | cas/src/expression.rs:39-59 | the flag loop returns true exactly when the expression contains `v`: a symbol literal that is `v`, a term containing it, or some term of a sum containing it; a non-symbol literal contains nothing |
| Cas.TermContains | cas/src/term.rs:27-41 | the flag loop returns true exactly when some factor contains `v`, either operand of a quotient does, or the nested expression does |
| Cas.SymbolExpression | cas/src/expression.rs:31-37 | a symbol literal contains exactly its own name |
| Cas.FromLiteral | cas/src/expression.rs:11-17 | the literal expression holds the literal, and a non-symbol literal has no symbols |
| Cas.FromTerm | cas/src/expression.rs:19-21 | the single-term expression contains what the term contains |
| Cas.FromTerms | cas/src/expression.rs:23-29 | the sum contains exactly what some term contains |
| Cas.TermFromFactors | cas/src/term.rs:11-13 | the product contains exactly what some factor contains |
| Cas.TermFromLiteral | cas/src/term.rs:15-17 | the literal term contains exactly the literal's symbol |
| Cas.TermFromExpressions | cas/src/term.rs:19-21 | one expression factor per expression, in the same order and number, containing what some expression contains |
| Cas.TermDiv | cas/src/term.rs:23-25 | the quotient contains exactly what either factor contains |
| Cas.FactorFromLiteral | cas/src/factor.rs:11-13 | the literal factor contains exactly the literal's symbol |
| Cas.FactorFromTerms | cas/src/factor.rs:16-18 | the parenthesised sum contains what some term contains |
| Cas.Simplify | cas/src/expression.rs:61-63 | `simplify` leaves the expression unchanged |
| Cas.ContainsTests | cas/src/term.rs:44-50 | the unit tests `expression_contains`, `term_contains` and `factor_contains` hold |
| PlaceholderCas.Contains | interpreter/src/placeholder_cas.rs:224-235 | `contains` is whether `v` is among the collected variables, or the collection's error |
| PlaceholderCas.VariablesOfSupported | interpreter/src/placeholder_cas.rs:205-222 | collection succeeds exactly on trees of Binary and Literal nodes and otherwise fails with "Expression not supported in finder" on line 1; `v` is collected exactly when it is an identifier leaf |
| PlaceholderCas.VariablesInOrder | interpreter/src/placeholder_cas.rs:208-211 | the left operand's variables come first, then the right operand's |
| PlaceholderCas.AsWrittenOnIdentifiers | interpreter/src/placeholder_cas.rs:12-97 | the code as written and the intended solver agree whenever the binary side's left operand is an identifier |
| PlaceholderCas.AsWrittenRejectsNumberOperand | interpreter/src/placeholder_cas.rs:37-50 | as written, `2/x = 4` and `4 = 2/x` give "Cannot handle this equaion" (lines 4 and 9), so the last two assertions of `basic_cas` fail (also lines 77-90, 166-196) |
| PlaceholderCas.BasicCas | interpreter/src/placeholder_cas.rs:100-197 | all six assertions of `basic_cas` hold for the intended solver |
| PlaceholderCas.SolveForFallbacks | interpreter/src/placeholder_cas.rs:17-92 | when the literal side mentions the variable the binary side comes back unchanged; other operators give `Int 0` with the binary side on the left and `Null` with it on the right |
| PlaceholderCas.SolveForOtherShapes | interpreter/src/placeholder_cas.rs:95 | any other pair of sides gives `Int 0`, as written and as intended |
| PlaceholderCas.ValueIgnores | interpreter/src/placeholder_cas.rs:17-19 | a tree that does not mention the variable has the same value whatever the variable is bound to |
| PlaceholderCas.SolutionShape | interpreter/src/placeholder_cas.rs:21-87 | `x*a = b` and `a*x = b` give `b/a`, `x/a = b` gives `b*a`, `a/x = b` gives `a/b`, and the same for the mirrored equations |
| PlaceholderCas.QuotientTimes | interpreter/src/placeholder_cas.rs:24-30 | dividing by a non-zero coefficient undoes multiplying by it |
| PlaceholderCas.QuotientOfQuotient | interpreter/src/placeholder_cas.rs:44-46 | `a / (a / b) = b` for non-zero `a` and `b` |
| PlaceholderCas.SolutionSatisfies | interpreter/src/placeholder_cas.rs:12-97 | the intended solver is correct: binding the variable to the value of its solution makes both sides of the equation equal |
| CsvLexing.NumberToken | interpreter/src/csv.rs:152-167 | a grapheme that is not a number leaves the lexer untouched; otherwise the cursor stays within the graphemes and never moves backwards |
| CsvLexing.NameToken | interpreter/src/csv.rs:136-150 | `column_name` never moves the cursor backwards |
| CsvLexing.CsvHandler | interpreter/src/csv.rs:116-134 | no handler moves the cursor backwards or past the end |
| CsvLexing.CsvLexer.ConsumeChar | interpreter/src/csv.rs:200-202 | the cursor advances by one and nothing else changes |
| CsvLexing.CsvLexer.AddToken | interpreter/src/csv.rs:204-206 | one token with the current line is appended and nothing else changes |
| CsvLexing.CsvLexer.ParseInt | interpreter/src/csv.rs:169-180 | one digit: the accumulator becomes `acc * 10 + num` and the cursor advances, the flag is raised by a `.digit` lookahead; an overflowing multiply or add panics |
| CsvLexing.CsvLexer.ParseFloat | interpreter/src/csv.rs:182-198 | one Decimal token is added, holding the whole part plus the exact fraction of the scanned digits, with the cursor after them |
| CsvLexing.CsvLexer.ParseNumber | interpreter/src/csv.rs:152-167 | the handler's effect is `NumberToken` |
| CsvLexing.CsvLexer.ColumnName | interpreter/src/csv.rs:136-150 | the handler's effect is `NameToken` |
| CsvLexing.CsvLexer.MatchChar | interpreter/src/csv.rs:116-134 | the handler's effect is `CsvHandler` |
| CsvLexing.CsvLexer.LexCsv | interpreter/src/csv.rs:102-114 | the tokens are those of `CsvFrom` from the start, or its panic |
| CsvLexing.CsvLexer.Lex | interpreter/src/csv.rs:94-100 | the CSV `Lexer::lex` gives `CsvTokens` of the graphemes |
| CsvLexing.CountOfAppend | interpreter/src/csv.rs:204-206 | counting tokens of a type is additive over concatenation |
| CsvLexing.OccurrencesSplit | interpreter/src/csv.rs:107-111 | counting graphemes is additive over adjacent ranges |
| CsvLexing.OccurrencesSentinel | interpreter/src/csv.rs:103 | the sentinel space adds no newline and no comma |
| CsvLexing.QuietCounts | interpreter/src/csv.rs:116-134 | a range without separators has no newline and no comma |
| CsvLexing.DigitIsQuiet | interpreter/src/csv.rs:125 | a digit grapheme is no separator |
| CsvLexing.RunIsDigits | interpreter/src/csv.rs:157-159 | every grapheme the number scan passes is a digit |
| CsvLexing.WordIsQuiet | interpreter/src/csv.rs:139-147 | the word scan passes no separator |
| CsvLexing.NumberIsQuiet | interpreter/src/csv.rs:152-167 | `parse_number` passes no separator and adds exactly one Int or Decimal token |
| CsvLexing.HandlerCount | interpreter/src/csv.rs:116-134 | a newline adds exactly one NewLine token and a comma exactly one Comma token; no other handler adds either |
| CsvLexing.HandlerNoEof | interpreter/src/csv.rs:116-134 | no handler adds an EOF token |
| CsvLexing.CsvFromCount | interpreter/src/csv.rs:107-113 | from any cursor there is one NewLine token per newline and one Comma token per comma still ahead |
| CsvLexing.CsvFromEof | interpreter/src/csv.rs:107-113 | from any cursor the tokens hold exactly one EOF token, the last |
| CsvLexing.CsvFromStep | interpreter/src/csv.rs:107-111 | one round of `lex_csv`'s loop: the handler's tokens, then the lexing of the rest |
| CsvLexing.CsvTokenCounts | interpreter/src/csv.rs:94-123 | the CSV lexer emits a NewLine token for each `\n`, a Comma token for each `,`, and one final EOF |
| CsvLexing.CarriageReturnNewLineIgnored | interpreter/src/csv.rs:116-134 | a `\r\n` cluster matches no case: it adds no token and does not advance the line |
| CsvLexing.IntCells | interpreter/src/csv.rs:152-167 | a digit run not followed by `.digit` is one Int token with its decimal value |
| Csv.ParseTitles | interpreter/src/csv.rs:62-83 | the loop gives `Titles` from the first token |
| Csv.TitlesHeader | interpreter/src/csv.rs:62-83 | a header of String-carrying tokens and commas up to a NewLine gives the Strings in order, and the index just past the NewLine |
| Csv.TitlesRejects | interpreter/src/csv.rs:71-75 | the first header token that is neither a title nor a comma is an error naming its literal, or saying it has none |
| Csv.Row | interpreter/src/csv.rs:47-52 | a row that is read ends on a NewLine or EOF token |
| Csv.ParseValues | interpreter/src/csv.rs:41-60 | the nested loops give `Values` |
| Csv.RowValues | interpreter/src/csv.rs:47-52 | a row holds, in order, the literals of its tokens (commas carry none) up to the NewLine or EOF that ends it |
| Csv.ValuesStep | interpreter/src/csv.rs:45-57 | each line becomes one row, and reading goes on past the NewLine |
| Csv.RowEnds | interpreter/src/csv.rs:47 | a row of a token list that ends in EOF always finds its end |
| Csv.ValuesEnd | interpreter/src/csv.rs:41-60 | on a token list that ends in EOF, as the lexer's does, `parse_values` cannot panic |
| Csv.ValuesToColumns | interpreter/src/csv.rs:27-39 | the nested loops give `Columns` |
| Csv.ColumnsTranspose | interpreter/src/csv.rs:27-39 | for rows with a value per title, there is one column per title, each as long as the rows, and column `j` holds the `j`-th value of every row |
| Csv.ParseCsv | interpreter/src/csv.rs:17-25 | `parse_csv` gives `Table` |
| Csv.CsvToDatatable | interpreter/src/csv.rs:8-15 | `csv_to_datatable` gives `ReadTable`: the table of the file, or "Couldn't read file: " with the name |
| Csv.SizeSumBound | interpreter/src/csv.rs:266-287 | one object of a list is no larger than the list |
| Csv.CellsBelowAppend | interpreter/src/csv.rs:279-280 | the size bound on cells is kept by concatenation |
| Csv.UncertainValuesAreDecimals | interpreter/src/csv.rs:273-278 | the split columns hold Decimals only |
| Csv.WideCellsBelow | interpreter/src/csv.rs:266-287 | the written columns hold no cell as large as the table |
| Csv.CatAssoc | interpreter/src/csv.rs:289-290 | appending texts is associative, failures included |
| Csv.SplitAfter | interpreter/src/csv.rs:269 | indexing and cutting just after a prefix |
| Csv.InsertAfter | interpreter/src/csv.rs:269 | `names.insert` just after a title |
| Csv.ReplaceInsert | interpreter/src/csv.rs:279-280 | replacing a column and inserting one just after it |
| Csv.FormatForCsv | interpreter/src/csv.rs:234-248 | `format_for_csv` gives `CsvText` |
| Csv.SplitColumn | interpreter/src/csv.rs:271-278 | the inner loop gives the values and the uncertainties of the Uncertain cells, in order |
| Csv.SplitStep | interpreter/src/csv.rs:268-283 | one pass over an Uncertain column turns its title and its column into two each, in place |
| Csv.KeepStep | interpreter/src/csv.rs:266-287 | one pass over any other column changes nothing |
| Csv.WidenColumns | interpreter/src/csv.rs:264-287 | the in-place loop gives `Widened`: the written titles and columns, or the error |
| Csv.FormatDatatableCsv | interpreter/src/csv.rs:250-292 | `format_datatable_csv` gives `TableText` |
| Csv.FormatDatatableCsvData | interpreter/src/csv.rs:294-308 | the loops append `RowsText` to the text |
| Csv.FormatDatatableCsvColumnNames | interpreter/src/csv.rs:310-319 | the loop appends the names, each followed by ", " but the last |
| Csv.DatatableToCsv | interpreter/src/csv.rs:210-223 | `datatable_to_csv` gives `WriteTable` |
| Csv.JoinedSnoc | interpreter/src/csv.rs:311-317 | joining one more string adds ", " and the string |
| Csv.ColumnNamesPrefix | interpreter/src/csv.rs:311-317 | every name but the last is followed by ", " |
| Csv.ColumnNamesJoined | interpreter/src/csv.rs:310-319 | the header line is the names joined by ", " |
| Csv.RowJoined | interpreter/src/csv.rs:297-305 | a data row is the texts of its cells joined by ", " |
| Csv.TableStartsWithHeader | interpreter/src/csv.rs:289-291 | the written text starts with the header, joined by ", " |
| Csv.UncertainWrittenAsValue | interpreter/src/csv.rs:240 | an Uncertain is written as its value only, like that Decimal |
| Csv.UnwritableObjects | interpreter/src/csv.rs:234-248 | outside tables, exactly Booleans, Decimals, Ints, Strings and Uncertains have a text; anything else is "Can't write … to CSV" |
| Csv.WideUnchanged | interpreter/src/csv.rs:266-287 | columns before the first Uncertain one are written as they are |
| Csv.Rejoin | interpreter/src/csv.rs:279-280 | a sequence cut in two and joined is itself |
| Csv.NoUncertainUnchanged | interpreter/src/csv.rs:266-287 | a table without Uncertain columns is written with its own titles and columns |
| Csv.WidePrefix | interpreter/src/csv.rs:266-287 | the written columns and titles only grow as the loop goes on |
| Csv.WideLengths | interpreter/src/csv.rs:266-287 | as many written titles as written columns |
| Csv.SplitPlacement | interpreter/src/csv.rs:266-283 | an Uncertain column becomes its value column followed immediately by its uncertainty column, titled with its title and `uncertainty<title>` |
| Csv.AllUncertainSplit | interpreter/src/csv.rs:273-278 | a column of Uncertain cells is split cell by cell into values and uncertainties |
| Csv.WriteTableOutcomes | interpreter/src/csv.rs:210-223 | anything but a DataTable is "Expected datatable, found …"; a writable table goes to `fileout`, whose failure is "Couldn't write to file …" |
| CsvLexing.CsvLexer.constructor | interpreter/src/csv.rs:95-103 | a new CSV lexer holds the graphemes of the file followed by the space `lex_csv` pushes, no tokens, line 1 and index 0 |
| Operations.CheckedInt | interpreter/src/operations.rs:16 | an Int result inside the i128 range is that Int; outside it, the overflow panic (also line 158) |
| Operations.Quotient | interpreter/src/operations.rs:218-286 | Decimal division gives the exact quotient, and panics on a zero divisor |
| Operations.PrefixedNothing | interpreter/src/operations.rs:60-76 | no earlier cells leave the rest as it is |
| Operations.PrefixedThenCell | interpreter/src/operations.rs:60-76 | pushing one more result cell is prefixing it |
| Operations.ColumnArithmetic | interpreter/src/operations.rs:60-76 | the `for` loop over a left Column gives `Arithmetic` on that Column |
| Operations.ColumnNegate | interpreter/src/operations.rs:532-545 | the `for` loop of `negate` over a Column gives `Negate` on it |
| OperationFacts.ColumnwiseCells | interpreter/src/operations.rs:60-76 | the remaining cells succeed exactly when every one does, and then cell `k` of the result is the operation on cell `i+k` |
| OperationFacts.FailingCellFails | interpreter/src/operations.rs:60-76 | a failing cell makes the Column operation fail |
| OperationFacts.CellOfSuccess | interpreter/src/operations.rs:60-76 | a successful Column operation succeeded on each of its cells |
| OperationFacts.ColumnByColumn | interpreter/src/operations.rs:60-68 | Column with Column is element-wise by index, with the left column's length; it succeeds when the right column is long enough and every pair succeeds |
| OperationFacts.ColumnByScalar | interpreter/src/operations.rs:69-73 | Column with a non-Column broadcasts the operand to every cell; the result has the column's length and succeeds exactly when every cell does |
| OperationFacts.ColumnwiseFirstFailure | interpreter/src/operations.rs:60-76 | the first failing cell's failure is the failure of the whole operation |
| OperationFacts.AddCommutes | interpreter/src/operations.rs:13-58 | adding numbers does not depend on the order of the operands |
| OperationFacts.UncertaintiesAdd | interpreter/src/operations.rs:39-57 | `Uncertain ± Uncertain` adds or subtracts the values and sums the uncertainties; with a plain number the uncertainty is kept (also lines 112-130) |
| OperationFacts.AddThenSubtract | interpreter/src/operations.rs:16 | subtracting what was added gives an Int back (also line 89) |
| OperationFacts.AddThenSubtractUncertain | interpreter/src/operations.rs:52-57 | adding then subtracting an Uncertain gives the value back with the uncertainty grown by twice the added one (also lines 125-130) |
| OperationFacts.IntOverflowHalts | interpreter/src/operations.rs:16 | Int `+` and `*` outside the i128 range halt instead of wrapping, give `x+y` and `x*y` inside it, and division by zero halts (also lines 158, 221) |
| OperationFacts.TestedExamples | interpreter/src/operations.rs:594-645 | all thirteen assertions of the `addition` and `multiply` tests hold, String + String and Decimal + Decimal among them |
| OperationFacts.ProductUncertainty | interpreter/src/operations.rs:155-217 | the product of two Uncertain values has uncertainty `y*u1 + x*u2` when neither value is zero |
| OperationFacts.IntDivisionTruncates | interpreter/src/operations.rs:221 | Int division truncates toward zero, for either sign |
| OperationFacts.UnsupportedLeftOperand | interpreter/src/operations.rs:81 | a left operand of an unsupported variant, such as a Boolean, is an error for every operator (also lines 150, 213, 282) |
| OperationFacts.MakeUncertainPairs | interpreter/src/operations.rs:548-591 | `make_uncertain` succeeds exactly on two numbers, with the first as value and the second as uncertainty; otherwise it is an error |
| OperationFacts.ComparisonsOnNumbersOnly | interpreter/src/operations.rs:338-473 | every comparison gives a Boolean exactly when both operands are Int or Decimal, and an error otherwise |
| OperationFacts.ComparisonDuality | interpreter/src/operations.rs:338-473 | `<` is the negation of `>=`, `<=` of `>`, `!=` of `==`; swapping operands turns `>` into `<`; `==` is symmetric |
| OperationFacts.LogicOnBooleansOnly | interpreter/src/operations.rs:476-529 | `and` and `or` are `&&` and `\|\|` on Booleans and errors on anything else; `not` succeeds exactly on Booleans; De Morgan holds |
| OperationFacts.NegateSucceeds | interpreter/src/operations.rs:532-545 | `negate` succeeds exactly on Ints without overflow, Decimals, and Columns of those; anything else is an error or the overflow panic |
| OperationFacts.NegateInvolution | interpreter/src/operations.rs:532-545 | negating twice gives the object back |
| OperationFacts.NegateCells | interpreter/src/operations.rs:537-541 | a Column is negated cell by cell, succeeding exactly when every cell does |
| Equality.CompareVecObj | common/src/object.rs:84-104 | the loop over the zip gives true exactly when the zipped prefixes are equal, which is the Array/Array and Column/Column equality |
| Equality.EqSymmetric | common/src/object.rs:73-94 | swapping the operands never changes the answer |
| Equality.BooleanNeverEqual | common/src/object.rs:91 | two Booleans are never equal, not even a Boolean and itself |
| Equality.ArrayNeverEqualsColumn | common/src/object.rs:91 | an Array and a Column are never equal |
| Equality.PayloadEquality | common/src/object.rs:77-90 | Int, String and Null values are equal exactly when their payloads are |
| Equality.ExtensionStaysEqual | common/src/object.rs:96-104 | elements past the shorter vector never matter |
| Equality.PrefixExample | common/src/object.rs:96-104 | `[1, 2]` equals `[1, 2, 3]`, and `[]` equals every array |
| StandardLib.RustBuiltinFirst | interpreter/src/standard_lib/mod.rs:10-18 | a Rust builtin that answers or fails decides the outcome of `run_fn_std`; the Hawk library is not consulted |
| StandardLib.HawkLibrarySecond | interpreter/src/standard_lib/mod.rs:10-18 | only when no Rust builtin answers is the Hawk library looked up, with the host state unchanged |
| StandardLib.StdRsNoneKeepsHost | interpreter/src/standard_lib/standard_lib_rs.rs:191 | a builtin that does not answer leaves the host state as it was |
| StandardLib.BuiltinNames | interpreter/src/standard_lib/standard_lib_rs.rs:66-77 | an unlisted name gives None; a listed name answers or fails, except `ln` on an argument that is neither Decimal nor Int (also line 191) |
| StandardLib.UnknownEverywhere | interpreter/src/standard_lib/mod.rs:10-18 | a name neither library knows gives None |
| StandardLib.LenBuiltin | interpreter/src/standard_lib/standard_lib_rs.rs:94-103 | `len` of an Array is its length as an Int; of anything else, the error naming the argument |
| StandardLib.KindBuiltins | interpreter/src/standard_lib/standard_lib_rs.rs:114-190 | each `is*` builtin is true exactly for one argument of its variant and false for every other arity |
| StandardLib.StrBuiltin | interpreter/src/standard_lib/standard_lib_rs.rs:104-113 | `str`/`string` of one argument is its printed text (or the printing error); any other arity is the "Expected exactly 1 input" error |
| StandardLib.ReadfileBuiltin | interpreter/src/standard_lib/standard_lib_rs.rs:12-25 | `readfile` of a String name is the host's content, an error when the host cannot read, and Null for a non-String name |
| StandardLib.WritefileBuiltin | interpreter/src/standard_lib/standard_lib_rs.rs:26-40 | `writefile` writes through the host only when both arguments are Strings; a non-String content gives Null with the host untouched; a String content with a non-String name is an error; a failed write is "Couldn't write file" |
| StandardLib.WritefileNeedsTwo | interpreter/src/standard_lib/standard_lib_rs.rs:26-40 | `writefile` with fewer than two arguments panics on the argument index |
| SemanticsFacts.HolderIs | interpreter/src/statement.rs:100-109 | the scope that holds the name above every other that does is the one the write-back search finds |
| SemanticsFacts.HolderNone | interpreter/src/statement.rs:100-113 | when no scope holds the name the search finds none, and the globals are written |
| SemanticsFacts.HolderTopmost | interpreter/src/statement.rs:103-108 | the search finds the topmost scope holding the name, or none when no scope holds it |
| SemanticsFacts.FindViaHolder | interpreter/src/statement.rs:281-294 | `get_variable` reads the topmost scope holding the name, else the globals, else Null |
| SemanticsFacts.GetVariableAbsent | interpreter/src/statement.rs:289-293 | a name held by no scope and not by the globals reads as Null |
| SemanticsFacts.FindOtherName | interpreter/src/statement.rs:281-294 | changing one scope at one name leaves every other name reading as before |
| SemanticsFacts.InsertTopFrame | interpreter/src/statement.rs:297-305 | `insert_top_scope` writes the top scope when there is one and the globals otherwise, changes no other map, keeps the depth, and afterwards the name reads as the value and every other name as before |
| SemanticsFacts.WriteBackFrame | interpreter/src/statement.rs:100-113 | the array write-back stores into the topmost scope holding the name, else the globals, changes nothing else, and the name then reads as the new array |
| SemanticsFacts.AssignedCells | interpreter/src/statement.rs:91-98 | after the padding the length is `idx + 1` when `idx` was past the end (else unchanged), cell `idx` is the value, earlier cells are kept and the padding is Null |
| SemanticsFacts.BindAllOutcome | app/src/eval/expression.rs:249-252 | binding parameters keeps the depth of the stack and panics exactly when an argument is missing |
| SemanticsFacts.BindAllBinds | app/src/eval/expression.rs:249-252 | with enough arguments each parameter reads its argument in the top scope, the last binding of a repeated name winning |
| SemanticsFacts.BindAllKeeps | app/src/eval/expression.rs:249-252 | binding other parameters leaves a name as it was |
| SemanticsFacts.ColumnNamesAreColumns | interpreter/src/statement.rs:129-136 | `run_process` collects exactly the Column variables of the top scope, in the map's order |
| SemanticsFacts.ColumnNamesMembers | interpreter/src/statement.rs:129-136 | every collected name is a Column variable of the top scope and every listed Column variable is collected |
| SemanticsFacts.ValuesOfNames | interpreter/src/statement.rs:129-136 | the collected values are the variables' own values, one per name |
| SemanticsFacts.ColumnNamesDistinct | interpreter/src/statement.rs:129-136 | with distinct keys, each Column variable is written exactly once |
| SemanticsFacts.ProcessWritesEachColumnOnce | interpreter/src/statement.rs:129-136 | when the map order lists every key of the scope once (`Semantics.ListsEachKeyOnce`), `run_process` writes exactly the top scope's Column variables, each of them once |
| SemanticsFacts.IndexIntoCases | app/src/eval/expression.rs:181-198 | a non-Int index, a negative index and a non-Array target are the three errors, in that order; otherwise the cast index gives its cell or panics past the end |
| SemanticsFacts.LiteralLookup | app/src/eval/expression.rs:77-83 | an Identifier reads its variable, any other literal is its own value, and the state is unchanged |
| SemanticsFacts.NonOperatorFails | app/src/eval/expression.rs:41-60 | any token but the fourteen binary operators makes a binary expression the "does not match any binary operator" error |
| SemanticsFacts.EvalAllValues | app/src/eval/expression.rs:113-116 | evaluating the arguments in order gives one value per expression after those already evaluated |
| SemanticsFacts.ScanArgsAgrees | app/src/eval/expression.rs:92-107 | the first pass over the arguments fails exactly when two or more are Uncertain, with the error that says so, and otherwise reports whether one is Uncertain and whether one is a Column |
| SemanticsFacts.CallArguments | app/src/eval/expression.rs:92-110 | when the arguments all evaluate, two or more Uncertain values make the call an error, and otherwise a Column argument makes it Null without calling anything |
| SemanticsFacts.InvokeFrame | app/src/eval/expression.rs:246-256 | a call pushes one scope, binds the parameters in order and runs the body; too few arguments panic; a successful call reads `return` and pops, so a body that keeps the depth leaves the depth as before the call |
| SemanticsFacts.CallFunctionLookup | app/src/eval/expression.rs:246-281 | a Function variable runs itself; otherwise the standard library decides, its error is passed on, nothing found is the "does not appear to be a function" error, and a Hawk function it returns is cached in the globals |
| SemanticsFacts.ViableIsLastRelevant | app/src/eval/expression.rs:135-150 | the choice of equation succeeds exactly when every equation's variables are computed, and then settles on the last equation that mentions a given name or the target |
| SemanticsFacts.FinderWithoutEquation | app/src/eval/expression.rs:130-168 | a name that is no finder is the "Expected finder" error, and a finder none of whose equations is relevant is the "No viable equation found" error |
| SemanticsFacts.FinderSolverRejects | app/src/eval/expression.rs:155-161 | once the given values are bound, a viable equation the solver rejects makes the call that solver error, with the pushed scope left on the stack; `2/x = 4` solved for `x` gives "Cannot handle this equaion" on line 4 |
| SemanticsFacts.ExecAllShift | interpreter/src/statement.rs:187-192 | running a list from past its first part is running its second part alone |
| SemanticsFacts.ExecAllConcat | interpreter/src/statement.rs:187-192 | statements run in list order: `a + b` runs `b` from the state `a` leaves only when `a` succeeds, and a failure in `a` is the outcome |
| SemanticsFacts.InterpretStopsAtFailure | interpreter/src/interpreter.rs:39-57 | `interpret` starts from the given globals with no scope, no loop and line 1, and a failure among the first statements is the outcome whatever statements follow |
| SemanticsFacts.WhileOkLeavesLoop | interpreter/src/statement.rs:245-273 | `run_while` succeeds only once `loops` differs from the loop's own number |
| SemanticsFacts.WhileOkRound | interpreter/src/statement.rs:249-254 | a round that runs the body succeeds only when the rounds after it do, with `loops` away from the loop's number |
| SemanticsFacts.WhileOkExit | interpreter/src/statement.rs:254-260 | a round that does not run the body succeeds only with `loops` away from the loop's number; a false condition with `loops` at the loop's number lowers it by one and ends the loop |
| SemanticsFacts.LoopOkLeavesLoop | interpreter/src/statement.rs:232-243 | `run_loop` succeeds only once a `break` has changed `loops` from the loop's number |
| SemanticsFacts.WhileFalseRestores | interpreter/src/statement.rs:245-260 | a `while` whose condition is false on entry runs no round and gives `loops` back its value before the loop |
| SemanticsFacts.WhileBreakRestores | interpreter/src/statement.rs:245-260 | a round whose body breaks ends the loop with `loops` at its value before the loop (also line 26) |
| SemanticsFacts.WhileBodyRan | interpreter/src/statement.rs:250-253 | a round whose condition holds and whose body succeeds leads to the next round |
| SemanticsFacts.WhileLeftLoop | interpreter/src/statement.rs:255-256 | a Boolean condition with `loops` away from the loop's number ends the loop there |
| SemanticsFacts.Conditions | interpreter/src/statement.rs:194-230 | `if`, `if else` and `while` with a non-Boolean condition are the errors naming it, before any block runs; `if else` runs exactly one block, and a false `if` none (also lines 262-269) |
| SemanticsFacts.LineAndExpression | interpreter/src/statement.rs:63-81 | `Line` adds one to the line, panicking when the counter would wrap; an expression statement outputs its value only in the REPL |
| SemanticsFacts.ArrayAssignEffect | interpreter/src/statement.rs:86-117 | a variable that is not an Array is left alone and nothing is evaluated; a non-Int index writes nothing; an Int index writes the padded array back and leaves every other name alone |
| SemanticsFacts.RunStages | interpreter/src/run.rs:41-71 | `run` is lex, parse, interpret: a halt of the lexer or an error of the parser is the outcome, unchanged, before anything is interpreted, and otherwise the outcome is that of interpreting the parsed statements |
| SemanticsFacts.RunScriptRouting | interpreter/src/run.rs:6-39 | `run_script` passes no error on: an unreadable file is reported as "Couldn't read file" on line 0 and a failing script with its own message and line, both giving an empty map; the script runs outside the REPL and its globals are the result on success |
| Interpreting.Interpreter.constructor | interpreter/src/interpreter.rs:39-51 | the interpreter starts from the given globals, no scope, no loop, line 1 and the REPL flag |
| Interpreting.Interpreter.GetVariable | interpreter/src/statement.rs:281-294 | the loop from the top scope down returns the variable's value as `Semantics.GetVariable` defines it (see `SemanticsFacts.FindViaHolder`) |
| Interpreting.Interpreter.InsertTopScope | interpreter/src/statement.rs:297-305 | the new state is `Semantics.InsertTop` of the old one (see `SemanticsFacts.InsertTopFrame`) |
| Interpreting.Interpreter.BindAll | app/src/eval/expression.rs:249-252 | binding the parameters in order gives the outcome and state `Semantics.BindAll` defines (see `SemanticsFacts.BindAllBinds`) |
| Interpreting.Interpreter.WriteBack | interpreter/src/statement.rs:100-113 | the reverse loop over the scopes writes as `Semantics.WriteBack` defines (see `SemanticsFacts.WriteBackFrame`) |
| Interpreting.Interpreter.DecrementLoops | interpreter/src/statement.rs:26 | `Break` lowers `loops` by one, panicking at zero |
| Interpreting.Interpreter.Output | interpreter/src/statement.rs:15-17 | a printed value goes to the output callback, a printing error is passed on |
| Interpreting.Interpreter.RunStatement | interpreter/src/statement.rs:12-84 | each statement has the outcome and the new state `Semantics.Exec` gives |
| Interpreting.Interpreter.RunInline | interpreter/src/statement.rs:14-81 | the statements run inline in `run_statement` (print, break, function and finder definitions, expression, line) act as `Semantics.Exec` gives |
| Interpreting.Interpreter.RunDefinition | interpreter/src/statement.rs:275-278 | a definition evaluates its value and stores it in the top scope, as `Semantics.Exec` gives |
| Interpreting.Interpreter.RunReturn | interpreter/src/statement.rs:180-185 | `return` evaluates its value and stores it as the variable `return` in the top scope |
| Interpreting.Interpreter.RunArrayAssign | interpreter/src/statement.rs:86-117 | array assignment acts as `Semantics.ExecArrayAssign` gives (see `SemanticsFacts.ArrayAssignEffect`) |
| Interpreting.Interpreter.AssignIndexed | interpreter/src/statement.rs:88-98 | for an Array variable, the index and then the value are evaluated, their failures passed on, and an Int index assigns the cell, as `Semantics.ExecArrayAssign` gives |
| Interpreting.Interpreter.AssignCell | interpreter/src/statement.rs:92-113 | the array padded with Nulls up to the index, the cell set and the result written back, as `Semantics.WriteBack` of `Semantics.Assigned` gives (see `SemanticsFacts.AssignedCells`) |
| Interpreting.Interpreter.RunWhile | interpreter/src/statement.rs:245-273 | the `while` loop, with its invariant that the rounds left are `Semantics.WhileFrom`, acts as `Semantics.Exec` gives (see `SemanticsFacts.WhileFalseRestores`, `SemanticsFacts.WhileBreakRestores`) |
| Interpreting.Interpreter.WhileRound | interpreter/src/statement.rs:250-261 | one round: when the loop goes on, the rounds left from the new state are those from the old one with one unit of fuel less; when it ends, the outcome is that of `Semantics.WhileFrom` |
| Interpreting.Interpreter.WhileLeave | interpreter/src/statement.rs:251-269 | a failed condition is passed on, a non-Boolean one is the "Expected boolean as condition for while loop" error, `loops` away from the loop's number ends it, and otherwise `loops` is lowered |
| Interpreting.Interpreter.RunLoop | interpreter/src/statement.rs:232-243 | the `loop` statement runs its body while `loops` is its own number, as `Semantics.LoopFrom` gives (see `SemanticsFacts.LoopOkLeavesLoop`) |
| Interpreting.Interpreter.RunIf | interpreter/src/statement.rs:214-230 | `if` acts as `Semantics.Exec` gives (see `SemanticsFacts.Conditions`) |
| Interpreting.Interpreter.RunIfElse | interpreter/src/statement.rs:194-212 | `if else` acts as `Semantics.Exec` gives (see `SemanticsFacts.Conditions`) |
| Interpreting.Interpreter.RunBlock | interpreter/src/statement.rs:187-192 | the statements of a block run in order, stopping at the first failure, as `Semantics.ExecAll` gives (see `SemanticsFacts.ExecAllConcat`) |
| Interpreting.Interpreter.RunImport | interpreter/src/statement.rs:167-178 | `import` of a String runs the script and replaces the globals with its result; another value is the "Expected filename to be a string" error |
| Interpreting.Interpreter.RunProcess | interpreter/src/statement.rs:119-150 | `process` pushes a scope, evaluates the input name there and acts as `Semantics.ExecProcess` gives |
| Interpreting.Interpreter.ProcessFile | interpreter/src/statement.rs:123-127 | a String input name opens the CSV file into the new scope before the block runs; the block then runs |
| Interpreting.Interpreter.WriteProcessed | interpreter/src/statement.rs:129-149 | the Column variables of the top scope are written through the `write` builtin to the file the output expression names (see `SemanticsFacts.ColumnNamesAreColumns`) |
| Interpreting.Interpreter.WriteDatatable | interpreter/src/statement.rs:139-148 | the call of the `write` builtin on the name and the datatable, its error passed on |
| Interpreting.Interpreter.OpenDatatable | interpreter/src/statement.rs:152-165 | the table read from the file is bound as `datatable` and column by column in the top scope |
| Interpreting.Interpreter.EvalExpression | app/src/eval/expression.rs:13-32 | each expression has the outcome and new state `Semantics.Eval` gives |
| Interpreting.Interpreter.EvalBinary | app/src/eval/expression.rs:35-61 | both operands are evaluated in order and the operator's operation applied (see `SemanticsFacts.NonOperatorFails`) |
| Interpreting.Interpreter.EvalUnary | app/src/eval/expression.rs:64-74 | the operand is evaluated and negated or inverted; any other token is an error |
| Interpreting.Interpreter.EvalLiteral | app/src/eval/expression.rs:77-83 | the literal's value as `Semantics.LiteralValue` defines it (see `SemanticsFacts.LiteralLookup`) |
| Interpreting.Interpreter.EvalEach | app/src/eval/expression.rs:113-116 | the expressions are evaluated in order, stopping at the first failure, as `Semantics.EvalAll` gives (see `SemanticsFacts.EvalAllValues`) |
| Interpreting.Interpreter.EvalArrayLiteral | app/src/eval/expression.rs:172-178 | an array literal is the Array of its evaluated elements |
| Interpreting.Interpreter.EvalArrayIndex | app/src/eval/expression.rs:181-198 | indexing acts as `Semantics.Eval` gives (see `SemanticsFacts.IndexIntoCases`) |
| Interpreting.Interpreter.EvalFunctionCall | app/src/eval/expression.rs:86-119 | the two passes over the arguments and the call act as `Semantics.EvalCall` gives (see `SemanticsFacts.ScanArgsAgrees`, `SemanticsFacts.CallArguments`) |
| Interpreting.Interpreter.CallFunction | app/src/eval/expression.rs:246-282 | a call acts as `Semantics.CallFunction` gives (see `SemanticsFacts.CallFunctionLookup`) |
| Interpreting.Interpreter.RunBody | app/src/eval/expression.rs:248-256 | the body of a call acts as `Semantics.Invoke` gives (see `SemanticsFacts.InvokeFrame`) |
| Interpreting.Interpreter.EvalFinderCall | app/src/eval/expression.rs:122-169 | a finder call acts as `Semantics.EvalFinder` gives: the finder's lookup, the new scope, the viable equation, the given values bound there, the as-written solver and the evaluation, popping the scope only on success (see `SemanticsFacts.FinderWithoutEquation` and `SemanticsFacts.FinderSolverRejects`) |
| Interpreting.Interpreter.BindGiven | app/src/eval/expression.rs:156-159 | each given value is evaluated and bound in the top scope, in order |
| Interpreting.Pad | interpreter/src/statement.rs:92-96 | the padding loop leaves `data` extended with Nulls to length `n + 1` when `n` is past its end, else unchanged; `n` is then an index |
| Interpreting.ColumnsOf | interpreter/src/statement.rs:129-136 | the loop over the top scope yields the Column variables in the map's order and their values |
| Interpreting.ChooseEquation | app/src/eval/expression.rs:135-150 | the loop over the equations settles on the equation `Semantics.Viable` gives (see `SemanticsFacts.ViableIsLastRelevant`) |
| Interpreting.Interpret | interpreter/src/interpreter.rs:29-58 | the statement loop gives the outcome `Semantics.Interpret` gives (see `SemanticsFacts.InterpretStopsAtFailure`) |
| Interpreting.RunSource | interpreter/src/run.rs:41-71 | lex, parse and interpret, as `Semantics.Run` gives (see `SemanticsFacts.RunStages`) |
| Interpreting.RunScript | interpreter/src/run.rs:6-39 | `run_script` as `Semantics.RunScript` gives (see `SemanticsFacts.RunScriptRouting`) |

## Left out

- `StandardLib.StdRs`: `read` and `write` (the CSV builtins) are modelled and routed through the codec, but only `writefile`, `readfile`, `len`, `str` and the `is*` builtins have lemmas of their own. `pi`, `ln10`, `ln`, `e` and `sin` are the decimal library's constants and functions, taken as parameters of `StandardLib.Library`.
- The Hawk half of the standard library (`standard_lib_hawk.rs`) is generated at build time. It is a lookup from names to function and finder objects supplied with the library.
- `call_function_with_uncertainty` (`app/src/eval/expression.rs:201-244`) works in floating point. A call that reaches it is the `Unmodelled` halt.
- Floating point is not modelled. `Decimal`, `Float` and the parts of `Uncertain` are exact reals, so the rounding of `rust_decimal` and `f64` are not captured.
- CSV numbers read as `Decimal` are the exact reals of their digits.
- `Equality.Eq`: the Int/Float and Float/Int arms (`common/src/object.rs:79`) compare exactly, because the model has no floating point. The source's `approx_eq` with a tolerance of 3 ulps is therefore not modelled.
- `Equality.CompareVecObj`: compares its elements with `Equality.Eq`, so it inherits that exact Int/Float comparison.
- `Display`/`Debug`/`user_print` are not reproduced:
  - an operand named inside an error message renders as its variant's name (`Operations.Render`);
  - a `{:?}` argument list renders as its variant names (`StandardLib.DebugList`);
  - `print` and `str` use a printer supplied with the library (`userPrint`), because `Object::user_print` is not part of this model.
- Unicode segmentation is simplified to one grapheme per character, except `"\r\n"`, which is one grapheme. Combining sequences are not clustered.
- `is_alphabetic` and `is_alphanumeric` are their ASCII subsets.
- Hawk programs need not terminate. Every step of the interpreter's recursive family spends one unit of `fuel`, and running out is the `OutOfFuel` halt. The model says nothing about a run longer than its fuel.
- Parsing at `ParseFrom` carries no fuel. A statement that consumes no token is the `Diverges` halt, which stands for the source's endless loop.
- The order in which a `HashMap` lists its keys is left to the platform. It is a parameter (`Config.order`), and `run_process` writes the Columns in that order. `Semantics.ListsEachKeyOnce` states what a real iteration order guarantees. The column facts that need it take it as a hypothesis (`SemanticsFacts.ProcessWritesEachColumnOnce`), and `Semantics.Run` does not require it. The given values of a finder call, a `HashMap` in the source, are a sequence (`Semantics.BindGiven`): any order of distinct names is one of these sequences, but a sequence may also repeat a name, which the map cannot.
- `run` passes `warn_fn` to `Parser::parse`, which as written takes only the tokens. The model's parser takes no callback and never warns.
- Foreign effects during a run:
  - the page's arrays are threaded through the interpreter as the value `Host`, not mutated by each callback as the run goes;
  - aliasing between the arrays and other page state is not modelled.
- The append-only growth of the output log is proved for each callback (`HawkInterface.Emit`), not over a whole run.
- The page's stored file list is a parameter of `Interface.constructor`. Reading `localStorage` and decoding its JSON are not modelled.
- Integer overflow halts, as the plain operators `+`, `*`, `-=` and `int * 10 + num` do in a build with overflow checks on (`Operations.CheckedInt`, `Lexing.IntRun`, `CsvLexing.CsvLexer.ParseInt`, `Semantics.Decremented`, `Semantics.Incremented` and the `Line` arm of `Semantics.Exec`). The source sets no Cargo profile, and a release build would wrap instead; the wrapping is not modelled.
- The panics of `rust_decimal` are not modelled. `Decimal` is an unbounded exact real, so `+`, `-` and `*` past its range do not halt. `Library.ln`, `DecimalMath.powd` and `DecimalMath.powi` are total parameters, so `ln` of zero or of a negative number and a failing `powd` or `powi` do not halt either.
- Allocation failure and stack overflow are not modelled.
- `app/src/eval.rs`, `app/src/eval_expr.rs` and `app/src/eval/operations.rs` are an older `f64` interpreter and are not part of this model. So are the REPL front ends (`app/src/main.rs`, `src/main.rs`, `src/io.rs`) and the Vue interface.
- `Process` pushes a scope that it never pops (`interpreter/src/statement.rs:122`). The model keeps this, and does not prove the depth of the scope stack across a `process` statement.
- `Interpreting.Interpreter.RunWhile`, `Interpreting.Interpreter.RunLoop` and the other class methods state the new state through `Semantics`. The loop-counter facts are proved about `Semantics` in `SemanticsFacts`, not restated on each method.

## Findings

| source | as written | input that shows it | evidently intended | confidence | as-written member | corrected member |
|---|---|---|---|---|---|---|
| interpreter/src/placeholder_cas.rs:21-50, 61-90 | the `*` and `/` arms on either side accept only an identifier as the left operand of the binary side, so a number there, as in `a/x = b`, is an error although the comments of those arms give its solution | `2/x = 4` solved for `x` gives the error "Cannot handle this equaion" on line 4, and `4 = 2/x` gives it on line 9. The `basic_cas` test (lines 166-196) expects `2/4` for both | `a/x = b` and `b = a/x` give `a/b`, so all six assertions of `basic_cas` hold | not executed | PlaceholderCas.SolveForAsWritten (PlaceholderCas.AsWrittenRejectsNumberOperand) | PlaceholderCas.SolveFor (PlaceholderCas.BasicCas, PlaceholderCas.SolutionSatisfies) |
