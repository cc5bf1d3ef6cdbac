/**
 Runs that reach the bounds and the gaps: a job whose every attempt fails makes
 exactly 4 * max_attempts - 1 status changes; handlers that die or meet a fault
 leave jobs at PROCESSING, FAILED and RETRYING, one of them with its work done;
 and a Complete acknowledges a job that is still PROCESSING.
 */
module ProtocolWitness {
  import opened GoTypes
  import opened Errors
  import opened Domain
  import opened Store
  import opened Protocol
  import opened ProtocolInvariant
  import opened ProtocolSteps
  import opened ProtocolTheorems
  import opened ProtocolStranding
  import opened Cluster
  import Backoff

  // ------------------------------------------------------------------ pieces of runs

  // A run from `s` to `s'` in which the status of `j` changes n times.
  ghost predicate Leg(s: State, events: seq<Event>, s': State, j: Uuid, n: nat) {
    Run(s, events) == s' && StatusChanges(s, events, j) == n
  }

  lemma LegOne(s: State, e: Event, j: Uuid)
    ensures Leg(s, [e], Next(s, e), j, if StatusMoved(s, Next(s, e), j) then 1 else 0)
  {
    assert [e][1..] == [];
  }

  lemma {:induction false} ChangesAdd(s: State, a: seq<Event>, b: seq<Event>, j: Uuid)
    ensures StatusChanges(s, a + b, j) == StatusChanges(s, a, j) + StatusChanges(Run(s, a), b, j)
    decreases |a|
  {
    if a == [] {
      assert [] + b == b;
    } else {
      assert (a + b)[0] == a[0] && (a + b)[1..] == a[1..] + b;
      ChangesAdd(Next(s, a[0]), a[1..], b, j);
    }
  }

  lemma LegThen(s: State, a: seq<Event>, s1: State, b: seq<Event>, s2: State, j: Uuid, n: nat, m: nat)
    requires Leg(s, a, s1, j, n) && Leg(s1, b, s2, j, m)
    ensures Leg(s, a + b, s2, j, n + m)
  {
    RunAppend(s, a, b);
    ChangesAdd(s, a, b, j);
  }

  // -------------------------------------------------------------------- one attempt

  const FAILURE: RunFailure := EncodeFailed(Opaque([]))

  function FreshId(n: nat): Uuid { Uuid(seq(n, _ => 0)) }

  function CleanInput(attempt: Uuid): Input { Input(Clean, attempt, Stopped(FAILURE), Opaque([]), 0, 0) }

  // Handler n and the n-th attempt id have not been used.
  ghost predicate Unused(s: State, n: nat) {
    (forall h :: h in s.workers ==> h < n) && (forall a :: a in s.tables.attempts ==> |a.text| < n)
  }

  predicate JobAt(t: Tables, j: Uuid, status: JobStatus, count: nat, max: nat) {
    j in t.jobs && t.jobs[j].status == status && t.jobs[j].attemptCount == count && t.jobs[j].maxAttempts == max
  }

  // Moves handler h one step whose effect is known.
  lemma MoveLeg(s: State, h: nat, inp: Input, j: Uuid) returns (s': State)
    requires h in s.workers
    ensures var (t', w') := WorkerStep(s.tables, s.workers[h], inp);
            && s' == s.(tables := t', workers := s.workers[h := w'])
            && Leg(s, [WorkerMoves(h, inp)], s', j, if StatusMoved(s, s', j) then 1 else 0)
  {
    s' := MoveWorker(s, h, inp);
    LegOne(s, WorkerMoves(h, inp), j);
  }

  lemma LoadStep(t: Tables, j: Uuid, inp: Input)
    requires j in t.jobs && t.jobs[j].status == Queued && inp.fault.Clean?
    ensures WorkerStep(t, Worker(j, Delivered, true), inp) == (t, Worker(j, Loaded, true))
  {
  }

  lemma ClaimStep(t: Tables, j: Uuid, inp: Input)
    requires IndexOK(t) && AllowedClaim(t, j, inp.attemptId) && inp.fault.Clean?
    ensures var (t', w') := WorkerStep(t, Worker(j, Loaded, true), inp);
            && JobAt(t', j, JobStatus.Processing, t.jobs[j].attemptCount + 1, t.jobs[j].maxAttempts)
            && w' == Worker(j, Owning(t'.jobs[j], inp.attemptId, RunPipeline), true)
            && t'.attempts.Keys == t.attempts.Keys + {inp.attemptId}
  {
    ClaimForm(t, j, inp.attemptId);
  }

  lemma FailStep(t: Tables, j: Uuid, row: JobRow, inp: Input)
    requires inp.outcome == Stopped(FAILURE)
    ensures WorkerStep(t, Worker(j, Owning(row, inp.attemptId, RunPipeline), true), inp)
            == (t, Worker(j, Owning(row, inp.attemptId, FinishFailed(Tag(FAILURE))), true))
  {
  }

  lemma FinishStep(t: Tables, j: Uuid, row: JobRow, inp: Input)
    requires inp.attemptId in t.attempts && inp.fault.Clean?
    ensures var (t', w') := WorkerStep(t, Worker(j, Owning(row, inp.attemptId, FinishFailed(Tag(FAILURE))), true), inp);
            && t'.jobs == t.jobs && t'.attempts.Keys == t.attempts.Keys
            && w' == Worker(j, Owning(row, inp.attemptId, Recheck(Tag(FAILURE))), true)
  {
  }

  function AfterFailure(row: JobRow): Point {
    if row.attemptCount < row.maxAttempts then RetryToFailed(Tag(FAILURE), Backoff.Delay(row.attemptCount, 0))
    else MarkFailed(Tag(FAILURE))
  }

  lemma RecheckStep(t: Tables, j: Uuid, row: JobRow, inp: Input)
    requires j in t.jobs && t.jobs[j].status == JobStatus.Processing && inp.fault.Clean? && inp.draw == 0
    ensures WorkerStep(t, Worker(j, Owning(row, inp.attemptId, Recheck(Tag(FAILURE))), true), inp)
            == (t, Worker(j, Owning(row, inp.attemptId, AfterFailure(row)), true))
  {
    assert !IsPermanent(Tag(FAILURE));
  }

  // The writes of the failure path.
  predicate Failing(p: Point) { WritesStatus(p) && !p.MarkCompleted? }

  // A guarded write that goes through, at such a point.
  lemma FailureWrite(t: Tables, w: Worker, inp: Input)
    requires w.phase.Owning? && w.job in t.jobs && inp.fault.Clean?
    requires Failing(w.phase.point)
    requires t.jobs[w.job].status == Expected(w.phase.point)
    ensures var (t', w') := WorkerStep(t, w, inp);
            var p := w.phase.point;
            && t'.attempts == t.attempts && w'.job == w.job
            && JobAt(t', w.job, StatusUpdate(p, inp.now).to, t.jobs[w.job].attemptCount, t.jobs[w.job].maxAttempts)
            && (p.RetryToFailed? ==> w'.phase == w.phase.(point := RetryToRetrying(p.err, p.delay)))
            && (p.RetryToRetrying? ==> w'.phase == w.phase.(point := RetryToQueued(p.delay)))
  {
    OwnerStatusStep(t, w, inp);
  }

  // Delivery and load of a QUEUED job by a handler not used before.
  lemma LoadLeg(s: State, n: nat, j: Uuid) returns (events: seq<Event>, s': State)
    requires Unused(s, n) && j in s.tables.jobs && s.tables.jobs[j].status == Queued
    ensures Leg(s, events, s', j, 0) && s'.tables == s.tables
    ensures s'.workers == s.workers[n := Worker(j, Loaded, true)]
  {
    var inp := CleanInput(FreshId(n));
    var s1 := Next(s, Deliver(n, j));
    LegOne(s, Deliver(n, j), j);
    LoadStep(s1.tables, j, inp);
    s' := MoveLeg(s1, n, inp, j);
    LegThen(s, [Deliver(n, j)], s1, [WorkerMoves(n, inp)], s', j, 0, 0);
    events := [Deliver(n, j)] + [WorkerMoves(n, inp)];
    assert s.workers[n := Worker(j, Delivered, true)][n := Worker(j, Loaded, true)]
        == s.workers[n := Worker(j, Loaded, true)];
  }

  // And the claim.
  lemma ClaimLeg(s: State, n: nat, j: Uuid, count: nat, max: nat) returns (events: seq<Event>, s': State)
    requires IndexOK(s.tables) && Unused(s, n) && JobAt(s.tables, j, Queued, count, max)
    ensures Leg(s, events, s', j, 1) && Unused(s', n + 1)
    ensures JobAt(s'.tables, j, JobStatus.Processing, count + 1, max) && FreshId(n) in s'.tables.attempts
    ensures n in s'.workers && s'.workers[n] == Worker(j, Owning(s'.tables.jobs[j], FreshId(n), RunPipeline), true)
  {
    var inp := CleanInput(FreshId(n));
    var load, s1 := LoadLeg(s, n, j);
    ClaimStep(s1.tables, j, inp);
    s' := MoveLeg(s1, n, inp, j);
    LegThen(s, load, s1, [WorkerMoves(n, inp)], s', j, 0, 1);
    events := load + [WorkerMoves(n, inp)];
  }

  // The pipeline fails and the handler decides what to do about it.
  lemma DecideLeg(s: State, n: nat, j: Uuid, count: nat, max: nat) returns (events: seq<Event>, s': State)
    requires Unused(s, n + 1) && JobAt(s.tables, j, JobStatus.Processing, count, max) && FreshId(n) in s.tables.attempts
    requires n in s.workers && s.workers[n] == Worker(j, Owning(s.tables.jobs[j], FreshId(n), RunPipeline), true)
    ensures Leg(s, events, s', j, 0) && Unused(s', n + 1)
    ensures JobAt(s'.tables, j, JobStatus.Processing, count, max)
    ensures n in s'.workers && s'.workers[n].job == j && s'.workers[n].phase.Owning?
    ensures s'.workers[n].phase.point == AfterFailure(s.tables.jobs[j])
  {
    var inp, row := CleanInput(FreshId(n)), s.tables.jobs[j];
    FailStep(s.tables, j, row, inp);
    var s1 := MoveLeg(s, n, inp, j);
    FinishStep(s1.tables, j, row, inp);
    var s2 := MoveLeg(s1, n, inp, j);
    RecheckStep(s2.tables, j, row, inp);
    s' := MoveLeg(s2, n, inp, j);
    events := [WorkerMoves(n, inp)];
    LegThen(s, events, s1, [WorkerMoves(n, inp)], s2, j, 0, 0);
    events := events + [WorkerMoves(n, inp)];
    LegThen(s, events, s2, [WorkerMoves(n, inp)], s', j, 0, 0);
    events := events + [WorkerMoves(n, inp)];
  }

  lemma WriteLeg(s: State, n: nat, inp: Input) returns (s': State)
    requires n in s.workers && Unused(s, n + 1) && inp.fault.Clean?
    requires var w := s.workers[n];
             && w.phase.Owning? && w.job in s.tables.jobs
             && Failing(w.phase.point)
             && s.tables.jobs[w.job].status == Expected(w.phase.point)
    ensures var w, j := s.workers[n], s.workers[n].job;
            var row := s.tables.jobs[j];
            && Leg(s, [WorkerMoves(n, inp)], s', j, 1) && Unused(s', n + 1)
            && JobAt(s'.tables, j, StatusUpdate(w.phase.point, inp.now).to, row.attemptCount, row.maxAttempts)
            && n in s'.workers && s'.workers[n].job == j
            && (w.phase.point.RetryToFailed? ==>
                  s'.workers[n].phase == w.phase.(point := RetryToRetrying(w.phase.point.err, w.phase.point.delay)))
            && (w.phase.point.RetryToRetrying? ==>
                  s'.workers[n].phase == w.phase.(point := RetryToQueued(w.phase.point.delay)))
  {
    FailureWrite(s.tables, s.workers[n], inp);
    s' := MoveLeg(s, n, inp, s.workers[n].job);
  }

  // FAILED, RETRYING and QUEUED again.
  lemma RequeueLeg(s: State, n: nat, j: Uuid, count: nat, max: nat) returns (events: seq<Event>, s': State)
    requires Unused(s, n + 1) && JobAt(s.tables, j, JobStatus.Processing, count, max)
    requires n in s.workers && s.workers[n].job == j
    requires s.workers[n].phase.Owning? && s.workers[n].phase.point.RetryToFailed?
    ensures Leg(s, events, s', j, 3) && Unused(s', n + 1) && JobAt(s'.tables, j, Queued, count, max)
  {
    var inp := CleanInput(FreshId(n));
    var s1 := WriteLeg(s, n, inp);
    var s2 := WriteLeg(s1, n, inp);
    s' := WriteLeg(s2, n, inp);
    events := [WorkerMoves(n, inp)];
    LegThen(s, events, s1, [WorkerMoves(n, inp)], s2, j, 1, 1);
    events := events + [WorkerMoves(n, inp)];
    LegThen(s, events, s2, [WorkerMoves(n, inp)], s', j, 2, 1);
    events := events + [WorkerMoves(n, inp)];
  }

  // One attempt that fails: back to QUEUED while attempts are left, FAILED after the last.
  lemma AttemptLeg(s: State, n: nat, j: Uuid, count: nat, max: nat) returns (events: seq<Event>, s': State)
    requires IndexOK(s.tables) && Unused(s, n) && JobAt(s.tables, j, Queued, count, max) && count < max
    ensures Unused(s', n + 1) && Leg(s, events, s', j, if count + 1 < max then 4 else 2)
    ensures JobAt(s'.tables, j, if count + 1 < max then Queued else Failed, count + 1, max)
  {
    var e1, s1 := ClaimLeg(s, n, j, count, max);
    var e2, s2 := DecideLeg(s1, n, j, count + 1, max);
    LegThen(s, e1, s1, e2, s2, j, 1, 0);
    if count + 1 < max {
      var e3;
      e3, s' := RequeueLeg(s2, n, j, count + 1, max);
      LegThen(s, e1 + e2, s2, e3, s', j, 1, 3);
      events := e1 + e2 + e3;
    } else {
      var e3 := [WorkerMoves(n, CleanInput(FreshId(n)))];
      s' := WriteLeg(s2, n, CleanInput(FreshId(n)));
      LegThen(s, e1 + e2, s2, e3, s', j, 1, 1);
      events := e1 + e2 + e3;
    }
  }

  lemma ReachedParts(past: seq<Event>, j: Uuid, count: nat, max: nat)
    requires JobAt(Reached(past).tables, j, Queued, count, max)
    ensures IndexOK(Reached(past).tables) && count < max
  {
    ReachedOK(past);
  }

  // From QUEUED with `count` attempts made: fail every attempt that is left.
  lemma {:induction false} FailToTheEnd(past: seq<Event>, n: nat, j: Uuid, count: nat, max: nat)
    returns (events: seq<Event>, s': State)
    requires Unused(Reached(past), n) && JobAt(Reached(past).tables, j, Queued, count, max)
    ensures count < max && Leg(Reached(past), events, s', j, 4 * (max - count) - 2)
    ensures JobAt(s'.tables, j, Failed, max, max)
    decreases max - count
  {
    ReachedParts(past, j, count, max);
    var s := Reached(past);
    events, s' := AttemptLeg(s, n, j, count, max);
    if count + 1 < max {
      RunAppend(Initial(), past, events);
      var more, end := FailToTheEnd(past + events, n + 1, j, count + 1, max);
      LegThen(s, events, s', more, end, j, 4, 4 * (max - count - 1) - 2);
      events, s' := events + more, end;
    }
  }

  // A create request without a key brings the job to QUEUED.
  lemma CreateLeg(p: NewJob) returns (events: seq<Event>, s': State)
    requires p.maxAttempts >= 1
    ensures Leg(Initial(), events, s', p.id, 1) && Unused(s', 0) && JobAt(s'.tables, p.id, Queued, 0, p.maxAttempts)
  {
    var inp := CleanInput(FreshId(0));
    var s := Initial();
    var s1 := Next(s, CreateArrives(0, p, []));
    LegOne(s, CreateArrives(0, p, []), p.id);
    var s2 := Next(s1, CreateMoves(0, inp));
    LegOne(s1, CreateMoves(0, inp), p.id);
    assert s2.creators[0].phase == Enqueuing(p.id, FreshRow(p), true);
    s' := Next(s2, CreateMoves(0, inp));
    LegOne(s2, CreateMoves(0, inp), p.id);
    LegThen(s, [CreateArrives(0, p, [])], s1, [CreateMoves(0, inp)], s2, p.id, 0, 0);
    events := [CreateArrives(0, p, [])] + [CreateMoves(0, inp)];
    LegThen(s, events, s2, [CreateMoves(0, inp)], s', p.id, 0, 1);
    events := events + [CreateMoves(0, inp)];
  }

  /** The bound on status changes is exact: for every attempt limit some run
      makes 4 * max_attempts - 1 of them. */
  lemma BoundIsReached(max: nat) returns (events: seq<Event>, j: Uuid)
    requires max >= 1
    ensures j in Reached(events).tables.jobs && Reached(events).tables.jobs[j].maxAttempts == max
    ensures StatusChanges(Initial(), events, j) == 4 * max - 1
  {
    j := Uuid([]);
    var e1, s1 := CreateLeg(NewJob(j, JobSpec([], [], []), [], max));
    var e2, s2 := FailToTheEnd(e1, 0, j, 0, max);
    LegThen(Initial(), e1, s1, e2, s2, j, 1, 4 * max - 2);
    events := e1 + e2;
  }

  // --------------------------------------------------------------------- the lost jobs

  lemma ReachedThen(past: seq<Event>, e: Event)
    ensures Reached(past + [e]) == Next(Reached(past), e)
  {
    RunAppend(Initial(), past, [e]);
    RunOne(Reached(past), e);
  }

  // Handler 0 owns job `j` and is about to make the call at `p`; nothing was cancelled.
  ghost predicate Standing(events: seq<Event>, j: Uuid, p: Point) {
    var s := Reached(events);
    && 0 in s.workers && s.workers[0].job == j && s.workers[0].phase.Owning? && s.workers[0].phase.point == p
    && j in s.tables.jobs && s.tables.jobs[j].status == Expected(p)
  }

  function NewJobOf(j: Uuid, max: nat): NewJob { NewJob(j, JobSpec([], [], []), [], max) }

  // Created, enqueued, delivered to handler 0 and loaded.
  lemma LoadedRun(j: Uuid, max: nat) returns (events: seq<Event>)
    requires max >= 1
    ensures JobAt(Reached(events).tables, j, Queued, 0, max) && FreshId(0) !in Reached(events).tables.attempts
    ensures 0 in Reached(events).workers && Reached(events).workers[0] == Worker(j, Loaded, true)
  {
    var create, s := CreateLeg(NewJobOf(j, max));
    var load, s' := LoadLeg(s, 0, j);
    RunAppend(Initial(), create, load);
    events := create + load;
  }

  lemma ClaimedRun(j: Uuid, max: nat) returns (events: seq<Event>)
    requires max >= 1
    ensures Standing(events, j, RunPipeline) && Unused(Reached(events), 1)
    ensures var s := Reached(events);
            && JobAt(s.tables, j, JobStatus.Processing, 1, max) && FreshId(0) in s.tables.attempts
            && s.workers[0] == Worker(j, Owning(s.tables.jobs[j], FreshId(0), RunPipeline), true)
  {
    var create, s := CreateLeg(NewJobOf(j, max));
    ReachedOK(create);
    var claim, s' := ClaimLeg(s, 0, j, 0, max);
    RunAppend(Initial(), create, claim);
    events := create + claim;
  }

  // The first attempt failed and the handler knows what to do about it.
  lemma DecidedRun(j: Uuid, max: nat) returns (events: seq<Event>, p: Point)
    requires max >= 1
    ensures Standing(events, j, p) && Unused(Reached(events), 1)
    ensures JobAt(Reached(events).tables, j, JobStatus.Processing, 1, max)
    ensures if max > 1 then p.RetryToFailed? else p.MarkFailed?
  {
    var claimed := ClaimedRun(j, max);
    var decide, s' := DecideLeg(Reached(claimed), 0, j, 1, max);
    RunAppend(Initial(), claimed, decide);
    events, p := claimed + decide, s'.workers[0].phase.point;
  }

  lemma WrittenRun(past: seq<Event>, j: Uuid, p: Point) returns (events: seq<Event>, p': Point)
    requires Standing(past, j, p) && Unused(Reached(past), 1) && (p.RetryToFailed? || p.RetryToRetrying?)
    ensures Standing(events, j, p') && Unused(Reached(events), 1)
    ensures if p.RetryToFailed? then p'.RetryToRetrying? else p'.RetryToQueued?
  {
    var inp := CleanInput(FreshId(0));
    var s' := WriteLeg(Reached(past), 0, inp);
    ReachedThen(past, WorkerMoves(0, inp));
    events, p' := past + [WorkerMoves(0, inp)], s'.workers[0].phase.point;
  }

  // An event that strands the job of a run makes it an orphan.
  lemma OrphanedRun(past: seq<Event>, j: Uuid, e: Event)
    requires Strands(Reached(past), e, j) && !Orphan(Reached(past), j)
    ensures Orphan(Reached(past + [e]), j)
  {
    ReachedOK(past);
    OrphansOfStep(Reached(past), e, j);
    ReachedThen(past, e);
  }

  lemma DeathOrphans(past: seq<Event>, j: Uuid, p: Point)
    requires Standing(past, j, p)
    ensures Orphan(Reached(past + [WorkerDies(0)]), j)
    ensures Reached(past + [WorkerDies(0)]).tables == Reached(past).tables
  {
    OrphanedRun(past, j, WorkerDies(0));
    ReachedThen(past, WorkerDies(0));
  }

  lemma LostClaimOrphans(past: seq<Event>, j: Uuid, e: Event)
    requires JobAt(Reached(past).tables, j, Queued, 0, 2) && FreshId(0) !in Reached(past).tables.attempts
    requires 0 in Reached(past).workers && Reached(past).workers[0] == Worker(j, Loaded, true)
    requires e == WorkerMoves(0, CleanInput(FreshId(0)).(fault := LostReply))
    ensures var s := Reached(past + [e]);
            Orphan(s, j) && 0 in s.workers && s.workers[0].phase == Done(Retry(0), false)
  {
    OrphanedRun(past, j, e);
    ReachedThen(past, e);
  }

  /** Jobs are lost at every status a handler works at: by a death after the claim
      at PROCESSING, in the middle of scheduling a retry at FAILED and at RETRYING,
      and by the lost reply of a claim, whose handler just asks for a redelivery. */
  lemma OrphansHappen(j: Uuid)
    returns (processing: seq<Event>, failed: seq<Event>, retrying: seq<Event>, unclaimed: seq<Event>)
    ensures Orphan(Reached(processing), j) && Reached(processing).tables.jobs[j].status == JobStatus.Processing
    ensures Orphan(Reached(failed), j) && Reached(failed).tables.jobs[j].status == Failed
    ensures Orphan(Reached(retrying), j) && Reached(retrying).tables.jobs[j].status == Retrying
    ensures var s := Reached(unclaimed);
            Orphan(s, j) && 0 in s.workers && s.workers[0].phase == Done(Retry(0), false)
  {
    processing, failed, retrying := DeathsOrphan(j);
    var loaded := LoadedRun(j, 2);
    var e := WorkerMoves(0, CleanInput(FreshId(0)).(fault := LostReply));
    LostClaimOrphans(loaded, j, e);
    unclaimed := loaded + [e];
  }

  lemma DeathsOrphan(j: Uuid) returns (processing: seq<Event>, failed: seq<Event>, retrying: seq<Event>)
    ensures Orphan(Reached(processing), j) && Reached(processing).tables.jobs[j].status == JobStatus.Processing
    ensures Orphan(Reached(failed), j) && Reached(failed).tables.jobs[j].status == Failed
    ensures Orphan(Reached(retrying), j) && Reached(retrying).tables.jobs[j].status == Retrying
  {
    var past := ClaimedRun(j, 2);
    var p := RunPipeline;
    DeathOrphans(past, j, p);
    processing := past + [WorkerDies(0)];
    past, p := DecidedRun(j, 2);
    past, p := WrittenRun(past, j, p);
    DeathOrphans(past, j, p);
    failed := past + [WorkerDies(0)];
    past, p := WrittenRun(past, j, p);
    DeathOrphans(past, j, p);
    retrying := past + [WorkerDies(0)];
  }

  function Producing(fault: Fault): Input { CleanInput(FreshId(0)).(fault := fault, outcome := Produced(0)) }

  lemma ProduceStep(t: Tables, w: Worker)
    requires w.phase.Owning? && w.phase.point.RunPipeline? && w.job in t.jobs
    ensures var (t', w') := WorkerStep(t, w, Producing(Clean));
            t'.jobs == t.jobs && t'.attempts == t.attempts && w' == At(w, FinishSucceeded)
  {
  }

  lemma SucceedStep(t: Tables, w: Worker)
    requires w.phase.Owning? && w.phase.point.FinishSucceeded? && w.phase.attempt in t.attempts
    ensures var (t', w') := WorkerStep(t, w, Producing(Clean));
            t'.jobs == t.jobs && w' == At(w, MarkCompleted)
  {
  }

  // The pipeline succeeded; then the attempt is recorded too.
  lemma SucceededRuns(j: Uuid) returns (produced: seq<Event>, recorded: seq<Event>)
    ensures Standing(produced, j, FinishSucceeded) && Standing(recorded, j, MarkCompleted)
  {
    var e := WorkerMoves(0, Producing(Clean));
    var claimed := ClaimedRun(j, 1);
    ProduceStep(Reached(claimed).tables, Reached(claimed).workers[0]);
    ReachedThen(claimed, e);
    produced := claimed + [e];
    SucceedStep(Reached(produced).tables, Reached(produced).workers[0]);
    ReachedThen(produced, e);
    recorded := produced + [e];
  }

  lemma LosingRun(past: seq<Event>, j: Uuid, e: Event)
    requires LosesWork(Reached(past), e, j) && !WorkLost(Reached(past), j)
    ensures WorkLost(Reached(past + [e]), j)
  {
    ReachedOK(past);
    WorkLostExactly(Reached(past), e, j);
    ReachedThen(past, e);
  }

  /** The documentation's one transaction is two statements: each of the three ways
      ends with a SUCCEEDED attempt on a PROCESSING job that nobody owns. */
  lemma FinishedWorkIsLost(j: Uuid) returns (unheard: seq<Event>, dropped: seq<Event>, died: seq<Event>)
    ensures WorkLost(Reached(unheard), j) && WorkLost(Reached(dropped), j) && WorkLost(Reached(died), j)
  {
    var produced, recorded := SucceededRuns(j);
    LosingRun(produced, j, WorkerMoves(0, Producing(LostReply)));
    unheard := produced + [WorkerMoves(0, Producing(LostReply))];
    LosingRun(recorded, j, WorkerMoves(0, Producing(Dropped)));
    dropped := recorded + [WorkerMoves(0, Producing(Dropped))];
    LosingRun(recorded, j, WorkerDies(0));
    died := recorded + [WorkerDies(0)];
  }

  /** Complete is not enough: after a dropped markFailed the message of a job that
      is still PROCESSING, and now nobody's, is acknowledged. */
  lemma CompleteIsNotEnough(j: Uuid) returns (events: seq<Event>)
    ensures var s := Reached(events);
            && 0 in s.workers && s.workers[0].job == j && s.workers[0].phase == Done(Complete, true)
            && Orphan(s, j) && s.tables.jobs[j].status == JobStatus.Processing
  {
    var past, p := DecidedRun(j, 1);
    var e := WorkerMoves(0, CleanInput(FreshId(0)).(fault := Dropped));
    OrphanedRun(past, j, e);
    ReachedThen(past, e);
    events := past + [e];
  }
}
