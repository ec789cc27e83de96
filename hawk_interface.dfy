/**
 * The browser side of the host: an append-only output log and an ordered list of
 * virtual files, both shared with the wasm module. `Host` is the value of the two
 * arrays at one moment; `Interface` holds them as mutable state.
 */
module HawkInterface {
  import opened Outcomes

  datatype OutputType = Print | Warn | Err
  datatype Output = Output(text: string, kind: OutputType)
  datatype File = File(name: string, content: string)

  /** Snapshot of the `output` and `files` arrays. */
  datatype Host = Host(output: seq<Output>, files: seq<File>)

  /** The file list a fresh page starts with when nothing is stored. */
  const DefaultFiles: seq<File> := [File("main.hawk", "")]

  /** Content of the first file called `name`, or `""` when there is none. */
  function FindContent(files: seq<File>, name: string): string
  {
    if |files| == 0 then ""
    else if files[0].name == name then files[0].content
    else FindContent(files[1..], name)
  }

  /** The host after `print`, `warn` or `error`: one entry added to the log. */
  function Emit(h: Host, text: string, kind: OutputType): (r: Host)
    ensures r.output == h.output + [Output(text, kind)] && r.files == h.files
  {
    Host(h.output + [Output(text, kind)], h.files)
  }

  /** The host after `writefile`: one file record added, even for an existing name. */
  function Store(h: Host, name: string, content: string): (r: Host)
    ensures r.files == h.files + [File(name, content)] && r.output == h.output
    ensures |r.files| == |h.files| + 1
  {
    Host(h.output, h.files + [File(name, content)])
  }

  lemma {:induction false} FindContentFirstMatch(files: seq<File>, name: string, i: nat)
    requires i < |files| && files[i].name == name
    requires forall k | 0 <= k < i :: files[k].name != name
    ensures FindContent(files, name) == files[i].content
    decreases i
  {
    if i > 0 {
      assert files[0].name != name;
      FindContentFirstMatch(files[1..], name, i - 1);
    }
  }

  lemma {:induction false} FindContentMissing(files: seq<File>, name: string)
    requires forall k | 0 <= k < |files| :: files[k].name != name
    ensures FindContent(files, name) == ""
    decreases |files|
  {
    if |files| > 0 {
      FindContentMissing(files[1..], name);
    }
  }

  /**
   * Writing a file that already exists is invisible to `readfile`, which keeps
   * finding the older record; writing a new name makes it readable.
   */
  lemma {:induction false} ReadAfterWrite(files: seq<File>, name: string, content: string, other: string)
    ensures FindContent(files + [File(name, content)], other) ==
      if exists k | 0 <= k < |files| :: files[k].name == other then FindContent(files, other)
      else if other == name then content
      else ""
    decreases |files|
  {
    if |files| == 0 {
      assert files + [File(name, content)] == [File(name, content)];
    } else {
      assert (files + [File(name, content)])[1..] == files[1..] + [File(name, content)];
      ReadAfterWrite(files[1..], name, content, other);
      if files[0].name != other {
        assert (exists k | 0 <= k < |files| :: files[k].name == other) ==
               (exists k | 0 <= k < |files[1..]| :: files[1..][k].name == other) by {
          if exists k | 0 <= k < |files| :: files[k].name == other {
            var k :| 0 <= k < |files| && files[k].name == other;
            assert files[1..][k - 1].name == other;
          }
          if exists k | 0 <= k < |files[1..]| :: files[1..][k].name == other {
            var k :| 0 <= k < |files[1..]| && files[1..][k].name == other;
            assert files[k + 1].name == other;
          }
        }
      }
    }
  }

  /** The two shared arrays of the page, updated in place by the host imports. */
  class Interface {
    var output: seq<Output>
    var files: seq<File>

    function State(): Host
      reads this
    {
      Host(output, files)
    }

    /**
     * Page start-up: an empty log, and the stored file list when one is saved
     * (its JSON decoding is not modelled), otherwise the default file list.
     */
    constructor (stored: Option<seq<File>>)
      ensures output == []
      ensures stored.Some? ==> files == stored.value
      ensures stored.None? ==> files == DefaultFiles
    {
      output := [];
      files := DefaultFiles;
      if stored.Some? {
        files := stored.value;
      }
    }

    method Print(message: string)
      modifies this
      ensures State() == Emit(old(State()), message, OutputType.Print)
    {
      output := output + [Output(message, OutputType.Print)];
    }

    method Warn(message: string)
      modifies this
      ensures State() == Emit(old(State()), message, OutputType.Warn)
    {
      output := output + [Output(message, OutputType.Warn)];
    }

    method Error(message: string)
      modifies this
      ensures State() == Emit(old(State()), message, OutputType.Err)
    {
      output := output + [Output(message, OutputType.Err)];
    }

    method WriteFile(name: string, content: string)
      modifies this
      ensures State() == Store(old(State()), name, content)
    {
      files := files + [File(name, content)];
    }

    /** `readfile`: a scan from the front that returns at the first matching name. */
    method ReadFile(name: string) returns (content: string)
      ensures content == FindContent(files, name)
    {
      var found := false;
      var i := 0;
      while !found && i < |files|
        invariant 0 <= i <= |files|
        invariant forall k | 0 <= k < i :: files[k].name != name
      {
        if files[i].name == name {
          FindContentFirstMatch(files, name, i);
          return files[i].content;
        }
        i := i + 1;
      }
      FindContentMissing(files, name);
      return "";
    }
  }
}
