/** internal/pipeline/pipeline.go: running an ordered list of stages with an audit trail. */
module Pipeline {
  import opened GoTypes
  import opened Errors

  datatype StageResult<I> = Output(value: I) | StageError(e: Err)

  // A processor: an arbitrary function of the current image and faces that may fail.
  datatype Stage<!I> = Stage(name: GoString, process: I -> StageResult<I>)

  datatype StepStatus = StepSucceeded | StepFailed

  datatype StepResult = StepResult(name: GoString, status: StepStatus, err: Option<Err>)

  /** A run of the stages value by value: vs[0] is the input and each stage turned
      its value into the next. */
  ghost predicate Chain<I>(stages: seq<Stage<I>>, input: I, vs: seq<I>) {
    && 0 < |vs| <= |stages| + 1 && vs[0] == input
    && forall i :: 0 <= i < |vs| - 1 ==> stages[i].process(vs[i]) == Output(vs[i + 1])
  }

  // There is only one way to run them.
  lemma {:induction false} ChainsAgree<I>(stages: seq<Stage<I>>, input: I, vs: seq<I>, ws: seq<I>, i: nat)
    requires Chain(stages, input, vs) && Chain(stages, input, ws) && i < |vs| && i < |ws|
    ensures vs[i] == ws[i]
  {
    if i == 0 {
    } else {
      ChainsAgree(stages, input, vs, ws, i - 1);
      assert stages[i - 1].process(vs[i - 1]) == Output(vs[i]);
      assert stages[i - 1].process(ws[i - 1]) == Output(ws[i]);
    }
  }

  ghost predicate Succeed<I(!new)>(stages: seq<Stage<I>>, input: I, k: nat) {
    exists vs :: |vs| == k + 1 && Chain(stages, input, vs)
  }

  // The first k stages are entered with a live context and all succeed; `ctx(i)` is
  // what the context says before stage i.
  ghost predicate Clears<I(!new)>(stages: seq<Stage<I>>, input: I, ctx: nat -> Option<Err>, k: nat) {
    k <= |stages| && Succeed(stages, input, k) && forall i: nat :: i < k ==> ctx(i).None?
  }

  // The longest such prefix.
  ghost predicate Longest<I(!new)>(stages: seq<Stage<I>>, input: I, ctx: nat -> Option<Err>, k: nat) {
    Clears(stages, input, ctx, k) && forall m: nat :: Clears(stages, input, ctx, m) ==> m <= k
  }

  lemma ClearsShorter<I(!new)>(stages: seq<Stage<I>>, input: I, ctx: nat -> Option<Err>, k: nat, m: nat)
    requires Clears(stages, input, ctx, m) && k <= m
    ensures Clears(stages, input, ctx, k)
  {
    var vs :| |vs| == m + 1 && Chain(stages, input, vs);
    assert |vs[..k + 1]| == k + 1 && Chain(stages, input, vs[..k + 1]);
  }

  lemma StoppingIsLongest<I(!new)>(stages: seq<Stage<I>>, input: I, ctx: nat -> Option<Err>, k: nat)
    requires Clears(stages, input, ctx, k) && !Clears(stages, input, ctx, k + 1)
    ensures Longest(stages, input, ctx, k)
  {
    forall m: nat | Clears(stages, input, ctx, m)
      ensures m <= k
    {
      if m > k {
        ClearsShorter(stages, input, ctx, k + 1, m);
      }
    }
  }

  // The audit trail of a prefix that succeeded.
  function Successes<I>(stages: seq<Stage<I>>): seq<StepResult> {
    if stages == [] then []
    else
      var last := |stages| - 1;
      Successes(stages[..last]) + [StepResult(stages[last].name, StepSucceeded, None)]
  }

  lemma {:induction false} SuccessesAt<I>(stages: seq<Stage<I>>, i: nat)
    requires i < |stages|
    ensures |Successes(stages)| == |stages| && Successes(stages)[i] == StepResult(stages[i].name, StepSucceeded, None)
  {
    var last := |stages| - 1;
    if i < last {
      SuccessesAt(stages[..last], i);
    } else if last > 0 {
      SuccessesAt(stages[..last], 0);
    }
  }

  // The chain ends in a stage that fails, so no chain goes further.
  lemma FailureStops<I(!new)>(stages: seq<Stage<I>>, input: I, vs: seq<I>, k: nat)
    requires Chain(stages, input, vs) && |vs| == k + 1 && k < |stages| && stages[k].process(vs[k]).StageError?
    ensures !Succeed(stages, input, k + 1)
  {
    forall ws | |ws| == k + 2 && Chain(stages, input, ws)
      ensures false
    {
      assert stages[k].process(ws[k]) == Output(ws[k + 1]);
      ChainsAgree(stages, input, vs, ws, k);
    }
  }

  /** What a run that stopped after k stages leaves behind: the last value of their
      chain, why it stopped, and their steps in order; only a next stage that was
      entered and errored adds a FAILED step. */
  ghost predicate StoppedAfter<I(!new)>(stages: seq<Stage<I>>, input: I, ctx: nat -> Option<Err>, vs: seq<I>,
                                  out: I, err: Option<Err>, steps: seq<StepResult>)
  {
    && Chain(stages, input, vs)
    && var k := |vs| - 1;
       && out == vs[k]
       && if k == |stages| then err.None? && steps == Successes(stages)
          else if ctx(k).Some? then err == ctx(k) && steps == Successes(stages[..k])
          else
            && stages[k].process(out).StageError?
            && var e := stages[k].process(out).e;
               && err == Some(Wrapped(e))
               && steps == Successes(stages[..k]) + [StepResult(stages[k].name, StepFailed, Some(e))]
  }

  /** Run: for any number of stages and any cancellation point, the result is what
      the longest chain of successful stages ends with: every stage of it was given
      the value the one before it put out. The recorded steps are that prefix in
      order, plus one FAILED step exactly when the next stage was entered and
      errored; a stop between stages records nothing. */
  method Run<I(!new)>(stages: seq<Stage<I>>, input: I, ctx: nat -> Option<Err>)
    returns (out: I, err: Option<Err>, steps: seq<StepResult>)
    ensures exists vs ::
              StoppedAfter(stages, input, ctx, vs, out, err, steps) && Longest(stages, input, ctx, |vs| - 1)
  {
    out, steps := input, [];
    ghost var vs := [input];
    for i := 0 to |stages|
      invariant |vs| == i + 1 && Chain(stages, input, vs) && out == vs[i]
      invariant forall k: nat :: k < i ==> ctx(k).None?
      invariant steps == Successes(stages[..i])
    {
      assert stages[..i + 1][..i] == stages[..i];
      assert Clears(stages, input, ctx, i);
      var cancelled := ctx(i);
      if cancelled.Some? {
        assert !Clears(stages, input, ctx, i + 1);
        StoppingIsLongest(stages, input, ctx, i);
        assert StoppedAfter(stages, input, ctx, vs, out, cancelled, steps);
        return out, cancelled, steps;
      }
      match stages[i].process(out) {
        case StageError(e) =>
          FailureStops(stages, input, vs, i);
          StoppingIsLongest(stages, input, ctx, i);
          err, steps := Some(Wrapped(e)), steps + [StepResult(stages[i].name, StepFailed, Some(e))];
          assert StoppedAfter(stages, input, ctx, vs, out, err, steps);
          return;
        case Output(value) =>
          steps := steps + [StepResult(stages[i].name, StepSucceeded, None)];
          out := value;
          vs := vs + [value];
      }
    }
    err := None;
    assert stages[..|stages|] == stages;
    assert Clears(stages, input, ctx, |stages|);
    assert StoppedAfter(stages, input, ctx, vs, out, err, steps) && Longest(stages, input, ctx, |vs| - 1);
  }
}
