/**
 * The page's two interpreter handles. REPL input always goes to one handle, which
 * keeps its state between inputs; a script run goes to the other, which is
 * cleared after every run. A handle is abstract: it only records the calls made
 * on it.
 */
module HawkLayer {

  datatype RunnerCall = Run(code: string, inRepl: bool) | Clear

  /** A wasm `Runner` handle, seen through the calls it has received. */
  class Runner {
    ghost var calls: seq<RunnerCall>

    constructor ()
      ensures calls == []
    {
      calls := [];
    }

    method Run(code: string, inRepl: bool)
      modifies this
      ensures calls == old(calls) + [RunnerCall.Run(code, inRepl)]
    {
      calls := calls + [RunnerCall.Run(code, inRepl)];
    }

    method Clear()
      modifies this
      ensures calls == old(calls) + [RunnerCall.Clear]
    {
      calls := calls + [RunnerCall.Clear];
    }
  }

  /** Every script run is immediately followed by a clear. */
  ghost predicate Batches(calls: seq<RunnerCall>)
    decreases |calls|
  {
    |calls| == 0 ||
    (|calls| >= 2 && calls[0].Run? && !calls[0].inRepl && calls[1].Clear? && Batches(calls[2..]))
  }

  lemma {:induction false} BatchesExtend(calls: seq<RunnerCall>, code: string)
    requires Batches(calls)
    ensures Batches(calls + [RunnerCall.Run(code, false), RunnerCall.Clear])
    decreases |calls|
  {
    if |calls| > 0 {
      assert (calls + [RunnerCall.Run(code, false), RunnerCall.Clear])[2..]
          == calls[2..] + [RunnerCall.Run(code, false), RunnerCall.Clear];
      BatchesExtend(calls[2..], code);
    }
  }

  /** The module-level state of the page: two handles created once and never reassigned. */
  class Layer {
    const codeRunner: Runner
    const replRunner: Runner

    /**
     * The REPL handle only ever sees REPL runs and is never cleared; the script
     * handle only sees script runs, each followed by a clear.
     */
    ghost predicate Valid()
      reads this, codeRunner, replRunner
    {
      codeRunner != replRunner
      && (forall k | 0 <= k < |replRunner.calls| :: replRunner.calls[k].Run? && replRunner.calls[k].inRepl)
      && Batches(codeRunner.calls)
    }

    constructor ()
      ensures Valid() && fresh(codeRunner) && fresh(replRunner)
      ensures codeRunner.calls == [] && replRunner.calls == []
    {
      codeRunner := new Runner();
      replRunner := new Runner();
    }

    /** `run_code`: dispatch to one handle, and clear the script handle after its run. */
    method RunCode(code: string, inRepl: bool)
      requires Valid()
      modifies codeRunner, replRunner
      ensures Valid()
      ensures inRepl ==> (replRunner.calls == old(replRunner.calls) + [RunnerCall.Run(code, true)]
                          && codeRunner.calls == old(codeRunner.calls))
      ensures !inRepl ==> (codeRunner.calls == old(codeRunner.calls) + [RunnerCall.Run(code, false), RunnerCall.Clear]
                           && replRunner.calls == old(replRunner.calls))
    {
      if inRepl {
        replRunner.Run(code, true);
      } else {
        ghost var before := codeRunner.calls;
        BatchesExtend(before, code);
        codeRunner.Run(code, false);
        codeRunner.Clear();
        assert codeRunner.calls == before + [RunnerCall.Run(code, false), RunnerCall.Clear];
      }
    }
  }
}
