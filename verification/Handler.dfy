/**
 internal/worker/handler.go: the code of one handler, run against a live system
 whose other actors may move before every store call. Its control flow is proved
 to be the protocol's: the system has made exactly the run that the schedule
 prescribes for the handler's calls, and what the code returns is the answer the
 transition system gives in that run.
 */
module Handler {
  import opened GoTypes
  import opened Errors
  import opened Domain
  import opened ObjectKeys
  import opened Store
  import opened Protocol
  import opened ProtocolInvariant
  import opened ProtocolSteps
  import opened ProtocolPreservation
  import opened HandlerAnswers
  import opened Cluster
  import Backoff

  // Handler `h` owns job `id` and is about to make the call at `p`.
  predicate Stands(s: State, h: nat, id: Uuid, row: JobRow, attempt: Uuid, p: Point) {
    h in s.workers && s.workers[h].job == id && s.workers[h].phase == Owning(row, attempt, p)
  }

  predicate Returned(s: State, h: nat, d: Decision, owned: bool) {
    h in s.workers && s.workers[h].phase == Done(d, owned)
  }

  // The system has come to handler h's n-th call from `start`, and no further.
  ghost predicate Came(sys: System, start: State, plan: Plan, h: nat, n: nat)
    reads sys, sys.repo
  {
    sys.View() == Run(start, WorkerCalls(plan, h, n))
  }

  // Where the reply to a status write leaves the handler.
  function AfterWrite(row: JobRow, attempt: Uuid, p: Point, r: Reply<JobRow>): Phase
    requires WritesStatus(p)
  {
    match p
    case MarkCompleted => Done(if r.Ok? || r.error == Conflict then Complete else Retry(0), true)
    case MarkFailed(_) => Done(Complete, true)
    case RetryToFailed(err, delay) =>
      if r.Ok? then Owning(row, attempt, RetryToRetrying(err, delay)) else Done(Retry(delay), true)
    case RetryToRetrying(_, delay) =>
      if r.Ok? then Owning(row, attempt, RetryToQueued(delay)) else Done(Retry(delay), true)
    case RetryToQueued(delay) => Done(Retry(delay), true)
  }

  lemma WriteStep(t: Tables, w: Worker, inp: Input)
    requires w.phase.Owning? && WritesStatus(w.phase.point)
    ensures var p := w.phase.point;
            var (t', r) := UpdateJobStatus(t, w.job, Expected(p), StatusUpdate(p, inp.now), inp.fault);
            && WorkerStep(t, w, inp).0 == t'
            && WorkerStep(t, w, inp).1.phase == AfterWrite(w.phase.row, w.phase.attempt, p, r)
            && WorkerStep(t, w, inp).1.job == w.job
  {
  }

  // Everything the others do before the n-th poll.
  function Before(ticks: seq<seq<Event>>, n: nat): seq<Event>
    requires n <= |ticks|
  {
    if n == 0 then [] else Before(ticks, n - 1) + ticks[n - 1]
  }

  // The i-th poll is answered with a CANCELLED row.
  predicate Shows(start: State, ticks: seq<seq<Event>>, faults: nat -> Fault, id: Uuid, i: nat)
    requires i < |ticks|
  {
    var r := Store.GetJob(Run(start, Before(ticks, i + 1)).tables, id, faults(i));
    r.Ok? && r.value.status == Cancelled
  }

  ghost predicate NoneShows(start: State, ticks: seq<seq<Event>>, faults: nat -> Fault, id: Uuid, n: int)
    requires n <= |ticks|
  {
    forall i: nat :: i < n ==> !Shows(start, ticks, faults, id, i)
  }

  class JobHandler {
    const sys: System

    constructor (sys: System)
      ensures this.sys == sys
    {
      this.sys := sys;
    }

    // The others move up to the handler's k-th call.
    method Reach(h: nat, plan: Plan, k: nat, ghost start: State) returns (s: State)
      requires WorkerPlan(plan, h) && Came(sys, start, plan, h, k) && h in sys.View().workers
      modifies sys, sys.repo
      ensures s == sys.View() && h in s.workers && s.workers[h] == old(sys.View()).workers[h]
      ensures MoveWorker(s, h, plan.input(k)) == Run(start, WorkerCalls(plan, h, k + 1))
    {
      WorkerSpared(sys.View(), plan.before(k), h);
      OneMoreCall(start, WorkerCalls(plan, h, k), plan.before(k), WorkerMoves(h, plan.input(k)));
      sys.Interfere(plan.before(k));
      s := sys.View();
    }

    // A guarded status write: the handler's k-th call.
    method WriteStatus(h: nat, id: Uuid, ghost row: JobRow, ghost attempt: Uuid, p: Point, plan: Plan, k: nat,
                       ghost start: State)
      returns (r: Reply<JobRow>)
      requires WorkerPlan(plan, h) && Came(sys, start, plan, h, k)
      requires Stands(sys.View(), h, id, row, attempt, p) && WritesStatus(p)
      modifies sys, sys.repo
      ensures Came(sys, start, plan, h, k + 1)
      ensures h in sys.View().workers && sys.View().workers[h].job == id
      ensures sys.View().workers[h].phase == AfterWrite(row, attempt, p, r)
    {
      var inp := plan.input(k);
      var s := Reach(h, plan, k, start);
      WriteStep(s.tables, s.workers[h], inp);
      r := sys.repo.UpdateJobStatus(id, Expected(p), StatusUpdate(p, inp.now), inp.fault);
      sys.Record(MoveWorker(s, h, inp));
    }

    // FinishAttempt, the call after the pipeline's.
    method FinishAttempt(h: nat, id: Uuid, ghost row: JobRow, attempt: Uuid, p: Point, plan: Plan, ghost start: State)
      returns (r: Reply<()>)
      requires WorkerPlan(plan, h) && Came(sys, start, plan, h, 3) && Stands(sys.View(), h, id, row, attempt, p)
      requires p.FinishSucceeded? || p.FinishFailed?
      modifies sys, sys.repo
      ensures Came(sys, start, plan, h, 4)
      ensures h in sys.View().workers && sys.View().workers[h].job == id
      ensures sys.View().workers[h].phase ==
              if p.FinishFailed? then Owning(row, attempt, Recheck(p.err))
              else if r.Ok? then Owning(row, attempt, MarkCompleted) else Done(Retry(0), true)
    {
      var inp := plan.input(3);
      var s := Reach(h, plan, 3, start);
      var status :=
        if p.FinishSucceeded? then Succeeded else if IsCancellation(p.err) then AttemptCancelled else AttemptFailed;
      r := sys.repo.FinishAttempt(attempt, status, inp.fault);
      sys.Record(MoveWorker(s, h, inp));
    }

    // finalizeSuccess: record the attempt, then complete the job unless it was cancelled meanwhile.
    method FinalizeSuccess(h: nat, id: Uuid, ghost row: JobRow, attempt: Uuid, plan: Plan, ghost start: State)
      returns (d: Decision, ghost calls: nat)
      requires WorkerPlan(plan, h) && Came(sys, start, plan, h, 3)
      requires Stands(sys.View(), h, id, row, attempt, FinishSucceeded)
      modifies sys, sys.repo
      ensures Came(sys, start, plan, h, calls) && AnsweredBy(start, plan, h, calls)
      ensures Returned(sys.View(), h, d, true)
    {
      var finished := FinishAttempt(h, id, row, attempt, FinishSucceeded, plan, start);
      if finished.Fail? {
        return Retry(0), 4;
      }
      var completed := WriteStatus(h, id, row, attempt, MarkCompleted, plan, 4, start);
      if completed.Fail? && completed.error != Conflict {
        return Retry(0), 5;
      }
      return Complete, 5;
    }

    // scheduleRetry: PROCESSING -> FAILED -> RETRYING -> QUEUED, stopping at the first error.
    method ScheduleRetry(h: nat, id: Uuid, ghost row: JobRow, ghost attempt: Uuid, cause: Err, delay: int, plan: Plan,
                         ghost start: State)
      returns (ok: bool, ghost calls: nat)
      requires WorkerPlan(plan, h) && Came(sys, start, plan, h, 5)
      requires Stands(sys.View(), h, id, row, attempt, RetryToFailed(cause, delay))
      modifies sys, sys.repo
      ensures Came(sys, start, plan, h, calls) && AnsweredBy(start, plan, h, calls)
      ensures Returned(sys.View(), h, Retry(delay), true)
    {
      var r := WriteStatus(h, id, row, attempt, RetryToFailed(cause, delay), plan, 5, start);
      if r.Fail? {
        return false, 6;
      }
      r := WriteStatus(h, id, row, attempt, RetryToRetrying(cause, delay), plan, 6, start);
      if r.Fail? {
        return false, 7;
      }
      r := WriteStatus(h, id, row, attempt, RetryToQueued(delay), plan, 7, start);
      return r.Ok?, 8;
    }

    // markFailed: whatever the write says, the failure is final.
    method MarkJobFailed(h: nat, id: Uuid, ghost row: JobRow, ghost attempt: Uuid, cause: Err, plan: Plan,
                         ghost start: State)
      requires WorkerPlan(plan, h) && Came(sys, start, plan, h, 5)
      requires Stands(sys.View(), h, id, row, attempt, MarkFailed(cause))
      modifies sys, sys.repo
      ensures Came(sys, start, plan, h, 6) && Returned(sys.View(), h, Complete, true)
    {
      var _ := WriteStatus(h, id, row, attempt, MarkFailed(cause), plan, 5, start);
    }

    // The look, before failing or retrying, whether an API cancel landed meanwhile.
    method LookAgain(h: nat, id: Uuid, ghost row: JobRow, ghost attempt: Uuid, err: Err, plan: Plan, ghost start: State)
      returns (cancelled: bool)
      requires WorkerPlan(plan, h) && Came(sys, start, plan, h, 4)
      requires Stands(sys.View(), h, id, row, attempt, Recheck(err))
      modifies sys, sys.repo
      ensures Came(sys, start, plan, h, 5)
      ensures h in sys.View().workers && sys.View().workers[h].job == id
      ensures sys.View().workers[h].phase ==
              if cancelled then Done(Complete, true)
              else if IsPermanent(err) || row.attemptCount >= row.maxAttempts then Owning(row, attempt, MarkFailed(err))
              else Owning(row, attempt, RetryToFailed(err, Backoff.Delay(row.attemptCount, plan.input(4).draw)))
    {
      var inp := plan.input(4);
      var s := Reach(h, plan, 4, start);
      var cur := sys.repo.GetJob(id, inp.fault);
      sys.Record(MoveWorker(s, h, inp));
      cancelled := cur.Ok? && cur.value.status == Cancelled;
    }

    method FinalizeFailure(h: nat, id: Uuid, row: JobRow, attempt: Uuid, err: Err, plan: Plan, ghost start: State)
      returns (d: Decision, ghost calls: nat)
      requires WorkerPlan(plan, h) && Came(sys, start, plan, h, 3)
      requires Stands(sys.View(), h, id, row, attempt, FinishFailed(err))
      modifies sys, sys.repo
      ensures Came(sys, start, plan, h, calls) && AnsweredBy(start, plan, h, calls)
      ensures Returned(sys.View(), h, d, true)
    {
      var _ := FinishAttempt(h, id, row, attempt, FinishFailed(err), plan, start);
      var cancelled := LookAgain(h, id, row, attempt, err, plan, start);
      if cancelled {
        return Complete, 5;
      }
      if !IsPermanent(err) && row.attemptCount < row.maxAttempts {
        var delay := Backoff.Backoff(row.attemptCount, plan.input(4).draw);
        var _, retried := ScheduleRetry(h, id, row, attempt, err, delay, plan, start);
        return Retry(delay), retried;
      }
      MarkJobFailed(h, id, row, attempt, err, plan, start);
      return Complete, 6;
    }

    /** runPipeline: the pipeline's outcome is the environment's; a produced
        output is recorded as the job's one artifact. */
    method RunPipeline(h: nat, id: Uuid, ghost row: JobRow, ghost attempt: Uuid, plan: Plan, ghost start: State)
      returns (err: Option<Err>)
      requires WorkerPlan(plan, h) && Came(sys, start, plan, h, 2)
      requires Stands(sys.View(), h, id, row, attempt, Point.RunPipeline)
      modifies sys, sys.repo
      ensures Came(sys, start, plan, h, 3)
      ensures Stands(sys.View(), h, id, row, attempt, if err.None? then FinishSucceeded else FinishFailed(err.value))
    {
      var inp := plan.input(2);
      var s := Reach(h, plan, 2, start);
      match inp.outcome {
        case Stopped(failure) =>
          err := Some(Tag(failure));
        case Produced(size) =>
          var recorded := sys.repo.AddArtifact(id, ResultKey(id), Artifact(size), inp.fault);
          err := if recorded.Ok? then None else Some(Tag(ArtifactNotRecorded(inp.storeError)));
      }
      sys.Record(MoveWorker(s, h, inp));
    }

    // The load at the head of Handle.
    method Load(h: nat, id: Uuid, plan: Plan, ghost start: State) returns (answer: Option<Decision>)
      requires WorkerPlan(plan, h) && Came(sys, start, plan, h, 0)
      requires h in sys.View().workers && sys.View().workers[h] == Worker(id, Delivered, true)
      modifies sys, sys.repo
      ensures Came(sys, start, plan, h, 1)
      ensures match answer
              case Some(d) => Returned(sys.View(), h, d, false)
              case None => h in sys.View().workers && sys.View().workers[h] == Worker(id, Loaded, true)
    {
      var inp := plan.input(0);
      var s := Reach(h, plan, 0, start);
      var row := sys.repo.GetJob(id, inp.fault);
      sys.Record(MoveWorker(s, h, inp));
      if row.Fail? {
        return Some(if row.error == NotFound then Discard else Retry(0));
      }
      return if IsTerminal(row.value.status) then Some(Complete) else None;
    }

    // The claim: either an answer at once or ownership of the job.
    method Claim(h: nat, id: Uuid, plan: Plan, ghost start: State)
      returns (answer: Option<Decision>, row: Reply<JobRow>)
      requires WorkerPlan(plan, h) && Came(sys, start, plan, h, 1)
      requires h in sys.View().workers && sys.View().workers[h] == Worker(id, Loaded, true)
      modifies sys, sys.repo
      ensures Came(sys, start, plan, h, 2)
      ensures match answer
              case Some(d) => Returned(sys.View(), h, d, false)
              case None => row.Ok? && Stands(sys.View(), h, id, row.value, plan.input(1).attemptId, Point.RunPipeline)
    {
      var inp := plan.input(1);
      var s := Reach(h, plan, 1, start);
      row := sys.repo.BeginAttempt(id, inp.attemptId, inp.fault);
      sys.Record(MoveWorker(s, h, inp));
      if row.Fail? {
        return Some(if row.error == Conflict then Complete else Retry(0)), row;
      }
      answer := None;
    }

    /** Handle: for every schedule of the other actors and every fault, the system
        makes the delivery and then exactly the handler's calls, each with the
        plan's input and after the plan's other events, until the call that settles
        the answer; the decision is the protocol's for that run. The invariant
        holds at the end. A job that is in the table is never discarded; a message
        for an absent one is, by a load that works; a handler that never claimed
        asks for a redelivery of a job it leaves QUEUED. What a handler that did
        claim leaves is the outcome of its pipeline if its own calls met no fault,
        and a Complete whose finalising writes met none leaves the job settled.
        `id` is the parsed job id, if it parsed. */
    method Handle(h: nat, id: Option<Uuid>, plan: Plan) returns (d: Decision, ghost calls: nat)
      requires Inv(sys.View()) && h !in sys.View().workers && WorkerPlan(plan, h)
      modifies sys, sys.repo
      ensures Inv(sys.View())
      ensures id.None? ==> d == Discard && calls == 0 && sys.View() == old(sys.View())
      ensures id.Some? ==>
                && sys.View() == Run(old(sys.View()), [Deliver(h, id.value)] + WorkerCalls(plan, h, calls))
                && AnsweredBy(Next(old(sys.View()), Deliver(h, id.value)), plan, h, calls)
                && h in sys.View().workers
                && var w := sys.View().workers[h];
                   && w.job == id.value && w.phase.Done? && w.phase.decision == d
                   && (d == Complete && w.phase.owned && w.clean ==> Settled(sys.View(), id.value))
                   && (id.value in old(sys.View()).tables.jobs ==> d != Discard)
                   && HandlerTells(old(sys.View()), plan, h, id.value, d, w.phase.owned, sys.View())
    {
      if id.None? {
        return Discard, 0;
      }
      ghost var s := sys.View();
      d, calls := HandleJob(h, id.value, plan);
      RunFirst(s, Deliver(h, id.value), WorkerCalls(plan, h, calls));
      RunKeeps(s, [Deliver(h, id.value)] + WorkerCalls(plan, h, calls));
      WorkerJobFixed(Next(s, Deliver(h, id.value)), h, WorkerCalls(plan, h, calls));
      HandlerTellsSo(s, plan, h, id.value, calls, d, sys.View().workers[h].phase.owned);
    }

    method HandleJob(h: nat, id: Uuid, plan: Plan) returns (d: Decision, ghost calls: nat)
      requires h !in sys.View().workers && WorkerPlan(plan, h)
      modifies sys, sys.repo
      ensures var start := Next(old(sys.View()), Deliver(h, id));
              Came(sys, start, plan, h, calls) && AnsweredBy(start, plan, h, calls)
      ensures Returned(sys.View(), h, d, true) || Returned(sys.View(), h, d, false)
    {
      var start := Next(sys.View(), Deliver(h, id));
      sys.Record(start);
      var answer := Load(h, id, plan, start);
      if answer.Some? {
        return answer.value, 1;
      }
      var row;
      answer, row := Claim(h, id, plan, start);
      if answer.Some? {
        return answer.value, 2;
      }
      var err := RunPipeline(h, id, row.value, plan.input(1).attemptId, plan, start);
      if err.None? {
        d, calls := FinalizeSuccess(h, id, row.value, plan.input(1).attemptId, plan, start);
      } else {
        d, calls := FinalizeFailure(h, id, row.value, plan.input(1).attemptId, err.value, plan, start);
      }
    }

    // One tick of the watcher.
    method Poll(id: Uuid, ticks: seq<seq<Event>>, faults: nat -> Fault, i: nat, ghost start: State)
      returns (shown: bool)
      requires i < |ticks| && sys.View() == Run(start, Before(ticks, i))
      modifies sys, sys.repo
      ensures sys.View() == Run(start, Before(ticks, i + 1)) && shown == Shows(start, ticks, faults, id, i)
    {
      RunAppend(start, Before(ticks, i), ticks[i]);
      sys.Interfere(ticks[i]);
      var job := sys.repo.GetJob(id, faults(i));
      shown := job.Ok? && job.value.status == Cancelled;
    }

    /** watchCancellation: polls until told to stop, and cancels the pipeline's
        context at the first poll that shows the job CANCELLED, and only then.
        `ticks[i]` is what the others do before the i-th poll. */
    method WatchCancellation(id: Uuid, ticks: seq<seq<Event>>, faults: nat -> Fault) returns (cancel: bool, polls: nat)
      modifies sys, sys.repo
      ensures polls <= |ticks| && sys.View() == Run(old(sys.View()), Before(ticks, polls))
      ensures if cancel then polls > 0 && Shows(old(sys.View()), ticks, faults, id, polls - 1) else polls == |ticks|
      ensures NoneShows(old(sys.View()), ticks, faults, id, if cancel then polls - 1 else polls)
    {
      ghost var start := sys.View();
      for i := 0 to |ticks|
        invariant sys.View() == Run(start, Before(ticks, i))
        invariant NoneShows(start, ticks, faults, id, i)
      {
        var shown := Poll(id, ticks, faults, i, start);
        if shown {
          return true, i + 1;
        }
      }
      return false, |ticks|;
    }
  }

  // A handler never changes the job it was delivered for.
  lemma WorkerJobStep(s: State, h: nat, e: Event)
    requires h in s.workers
    ensures h in Next(s, e).workers && Next(s, e).workers[h].job == s.workers[h].job
  {
    if e.WorkerMoves? && e.h == h {
      WorkerKeepsJob(s.tables, s.workers[h], e.inp);
    }
  }

  lemma {:induction false} WorkerJobFixed(s: State, h: nat, events: seq<Event>)
    requires h in s.workers
    ensures h in Run(s, events).workers && Run(s, events).workers[h].job == s.workers[h].job
    decreases |events|
  {
    if events == [] {
    } else {
      WorkerJobStep(s, h, events[0]);
      WorkerJobFixed(Next(s, events[0]), h, events[1..]);
    }
  }
}
