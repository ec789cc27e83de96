/**
 * The wasm entry point of the browser build: `run` hands the interpreter five
 * callbacks over the host's shared arrays (the virtual files and the output
 * log), starts it from an empty global map, and reports an error it returns
 * through the same `err` callback the interpreter uses. The host is the value
 * `HawkInterface.Host`, threaded through the interpreter as its world.
 */
module WasmLib {
  import opened Outcomes
  import opened Common
  import opened HawkInterface
  import Semantics
  import StandardLib
  import Interpreting

  const WARNING: string := "Warning"
  const ERROR: string := "Error"
  const ON_LINE: string := " on line "
  const COLON: string := ": "

  /**
   * `format!("{word}: {message}")` for line 0, else
   * `format!("{word} on line {line}: {message}")`.
   */
  function Tagged(word: string, message: string, line: nat): (t: string)
    ensures line == 0 ==> t == word + COLON + message
    ensures line != 0 ==> t == word + ON_LINE + NatToString(line) + COLON + message
  {
    if line == 0 then word + COLON + message else word + ON_LINE + NatToString(line) + COLON + message
  }

  /** The text `warn_fn` sends to the host's `warn`. */
  function WarnText(message: string, line: nat): string
  {
    Tagged(WARNING, message, line)
  }

  /** The text `err_fn` sends to the host's `error`. */
  function ErrText(message: string, line: nat): string
  {
    Tagged(ERROR, message, line)
  }

  /** The length of the run of decimal digits that starts `s`. */
  function DigitRun(s: string): (n: nat)
    ensures n <= |s|
    ensures forall i :: 0 <= i < n ==> '0' <= s[i] <= '9'
    ensures n < |s| ==> !('0' <= s[n] <= '9')
  {
    if |s| > 0 && '0' <= s[0] <= '9' then 1 + DigitRun(s[1..]) else 0
  }

  /**
   * Reads a report back: the message and the line of a text `Tagged(word, ..)`
   * produces, or None for a text of another form.
   */
  function Untagged(word: string, t: string): Option<(string, nat)>
  {
    if |t| >= |word| + |COLON| && t[..|word| + |COLON|] == word + COLON then
      Some((t[|word| + |COLON|..], 0))
    else if |t| >= |word| + |ON_LINE| && t[..|word| + |ON_LINE|] == word + ON_LINE then
      var rest := t[|word| + |ON_LINE|..];
      var n := DigitRun(rest);
      if n > 0 && |rest| >= n + |COLON| && rest[n..n + |COLON|] == COLON then
        Some((rest[n + |COLON|..], DigitsValue(rest[..n])))
      else None
    else None
  }

  /** A run of digits followed by a non-digit is exactly the digits. */
  lemma {:induction false} DigitRunOf(digits: string, s: string)
    requires forall i :: 0 <= i < |digits| ==> '0' <= digits[i] <= '9'
    requires |s| > 0 && !('0' <= s[0] <= '9')
    ensures DigitRun(digits + s) == |digits|
    decreases |digits|
  {
    if |digits| > 0 {
      assert (digits + s)[1..] == digits[1..] + s;
      DigitRunOf(digits[1..], s);
    } else {
      assert digits + s == s;
    }
  }

  /**
   * Every report can be read back: the message and the line number are
   * recovered from the text, whatever the message holds.
   */
  lemma TaggedRoundTrip(word: string, message: string, line: nat)
    ensures Untagged(word, Tagged(word, message, line)) == Some((message, line))
  {
    var t := Tagged(word, message, line);
    if line == 0 {
      assert t[..|word| + |COLON|] == word + COLON;
      assert t[|word| + |COLON|..] == message;
    } else {
      var digits := NatToString(line);
      assert t[|word|] == ' ';
      assert t[..|word| + |ON_LINE|] == word + ON_LINE;
      var rest := t[|word| + |ON_LINE|..];
      assert rest == digits + COLON + message;
      DigitRunOf(digits, COLON + message);
      assert digits + COLON + message == digits + (COLON + message);
      assert rest[..|digits|] == digits;
      assert rest[|digits|..|digits| + |COLON|] == COLON;
      assert rest[|digits| + |COLON|..] == message;
      DigitsOfNatToString(line);
    }
  }

  /** Warnings and errors read back as themselves, and a warning never reads as an error. */
  lemma ReportsReadBack(message: string, line: nat)
    ensures Untagged(WARNING, WarnText(message, line)) == Some((message, line))
    ensures Untagged(ERROR, ErrText(message, line)) == Some((message, line))
    ensures Untagged(ERROR, WarnText(message, line)).None?
  {
    TaggedRoundTrip(WARNING, message, line);
    TaggedRoundTrip(ERROR, message, line);
    WarningIsNoError(message, line);
  }

  lemma WarningIsNoError(message: string, line: nat)
    ensures Untagged(ERROR, WarnText(message, line)).None?
  {
    var t := WarnText(message, line);
    assert t[0] == 'W';
    assert (ERROR + COLON)[0] == 'E' && (ERROR + ON_LINE)[0] == 'E';
    if |t| >= |ERROR| + |COLON| {
      assert t[..|ERROR| + |COLON|][0] == 'W';
    }
    if |t| >= |ERROR| + |ON_LINE| {
      assert t[..|ERROR| + |ON_LINE|][0] == 'W';
    }
  }

  /** The five closures of `run` over the host's arrays. */
  function HostCallbacks(): Callbacks<Host>
  {
    Callbacks(
      (h: Host, name: string) => Some(FindContent(h.files, name)),
      (h: Host, name: string, content: string) => Some(Store(h, name, content)),
      (h: Host, message: string, line: nat) => Emit(h, WarnText(message, line), OutputType.Warn),
      (h: Host, message: string, line: nat) => Emit(h, ErrText(message, line), OutputType.Err),
      (h: Host, message: string) => Emit(h, message, OutputType.Print))
  }

  /**
   * The closures: reading never fails and gives the first matching file's
   * content (or ""), writing always succeeds and appends a file, and the
   * output, warning and error callbacks each append one entry of their kind,
   * the output one with the message unchanged.
   */
  lemma HostCallbacksAct(h: Host, name: string, content: string, message: string, line: nat)
    ensures HostCallbacks().filein(h, name) == Some(FindContent(h.files, name))
    ensures HostCallbacks().fileout(h, name, content).Some? &&
      HostCallbacks().fileout(h, name, content).value.files == h.files + [File(name, content)] &&
      HostCallbacks().fileout(h, name, content).value.output == h.output
    ensures HostCallbacks().output(h, message).output == h.output + [Output(message, OutputType.Print)]
    ensures HostCallbacks().warn(h, message, line).output == h.output + [Output(WarnText(message, line), OutputType.Warn)]
    ensures HostCallbacks().err(h, message, line).output == h.output + [Output(ErrText(message, line), OutputType.Err)]
    ensures HostCallbacks().output(h, message).files == h.files && HostCallbacks().warn(h, message, line).files == h.files &&
      HostCallbacks().err(h, message, line).files == h.files
  {
  }

  /** The configuration `run` gives the interpreter: the host closures, and the standard library and map order it is built with. */
  function BrowserConfig(lib: StandardLib.Library, order: Semantics.Scope -> seq<string>): Semantics.Config<Host>
  {
    Semantics.Config(HostCallbacks(), lib, order)
  }

  /**
   * `run`: the code run from an empty global map; an error it returns is
   * reported through `err_fn`, and a halt (a Rust panic) is passed on.
   */
  function BrowserRun(lib: StandardLib.Library, order: Semantics.Scope -> seq<string>, code: string, inRepl: bool, h: Host, fuel: nat)
    : (Result<()>, Host)
  {
    var (g, w) := Semantics.Run(BrowserConfig(lib, order), code, map[], inRepl, h, fuel);
    if g.Ok? then (Ok(()), w)
    else if g.Err? then (Ok(()), HostCallbacks().err(w, g.error.message, g.error.line))
    else (g.PropagateFailure(), w)
  }

  /**
   * `run` never fails with an error: an error of the interpreter is reported
   * exactly once, as the last entry of the log, in the "Error…" form that
   * reads back as its message and line, and the files are as the run left
   * them; a successful run adds nothing after the interpreter.
   */
  lemma BrowserRunReports(lib: StandardLib.Library, order: Semantics.Scope -> seq<string>, code: string, inRepl: bool, h: Host, fuel: nat)
    ensures !BrowserRun(lib, order, code, inRepl, h, fuel).0.Err?
    ensures var (g, w) := Semantics.Run(BrowserConfig(lib, order), code, map[], inRepl, h, fuel);
      (g.Err? ==>
         BrowserRun(lib, order, code, inRepl, h, fuel).1.output == w.output + [Output(ErrText(g.error.message, g.error.line), OutputType.Err)] &&
         BrowserRun(lib, order, code, inRepl, h, fuel).1.files == w.files &&
         Untagged(ERROR, ErrText(g.error.message, g.error.line)) == Some((g.error.message, g.error.line))) &&
      (g.Ok? ==> BrowserRun(lib, order, code, inRepl, h, fuel) == (Ok(()), w))
  {
    var (g, w) := Semantics.Run(BrowserConfig(lib, order), code, map[], inRepl, h, fuel);
    if g.Err? {
      ReportsReadBack(g.error.message, g.error.line);
    }
  }

  /**
   * `run` on the page's shared arrays: the interpreter runs over their
   * contents, which then hold what it left, with the error report appended.
   */
  method Run(page: Interface, lib: StandardLib.Library, order: Semantics.Scope -> seq<string>, code: string, inRepl: bool, fuel: nat)
    returns (r: Result<()>)
    modifies page
    ensures (r, page.State()) == BrowserRun(lib, order, code, inRepl, old(page.State()), fuel)
  {
    var g, w := Interpreting.RunSource(BrowserConfig(lib, order), code, map[], inRepl, page.State(), fuel);
    page.output, page.files := w.output, w.files;
    if g.Ok? {
      r := Ok(());
    } else if g.Err? {
      page.Error(ErrText(g.error.message, g.error.line));
      r := Ok(());
    } else {
      r := g.PropagateFailure();
    }
  }
}
