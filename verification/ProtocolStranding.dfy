/**
 Jobs the protocol loses: exactly when a job is left at work with nobody working
 on it, exactly when that happens although its work is done, and that such a job
 never moves again. The only remedy the system has, the queue, is none: a message
 is acknowledged or retried without touching a job that is not QUEUED.
 */
module ProtocolStranding {
  import opened GoTypes
  import opened Errors
  import opened Domain
  import opened Store
  import opened Protocol
  import opened ProtocolInvariant
  import opened ProtocolSteps
  import opened ProtocolPreservation
  import opened ProtocolTheorems

  // ------------------------------------------------------------------- orphans stay

  // The end of a job whose failure no retry should follow.
  predicate FailedForGood(row: JobRow) {
    && row.status == Failed
    && (row.attemptCount >= row.maxAttempts || (row.lastError.Some? && IsPermanent(row.lastError.value)))
  }

  predicate LeftAtWork(row: JobRow) {
    row.status in {JobStatus.Processing, Failed, Retrying} && !FailedForGood(row)
  }

  // Claimed, not at an end, and nobody works on it any more.
  ghost predicate Orphan(s: State, j: Uuid) {
    j in s.tables.jobs && Unowned(s, j) && LeftAtWork(s.tables.jobs[j])
  }

  ghost predicate OrphanKept(s: State, s': State, j: Uuid)
    requires j in s.tables.jobs
  {
    && j in s'.tables.jobs
    && ((Orphan(s', j) && s'.tables.jobs[j] == s.tables.jobs[j]) || s'.tables.jobs[j].status == Cancelled)
  }

  lemma OrphanUnderWorker(s: State, h: nat, inp: Input, j: Uuid)
    requires Orphan(s, j) && h in s.workers
    requires OnlyTouches(s.tables, MoveWorker(s, h, inp).tables, s.workers[h].job)
    ensures OrphanKept(s, MoveWorker(s, h, inp), j)
  {
    var w := s.workers[h];
    WorkerKeepsJob(s.tables, w, inp);
    if !w.phase.Owning? {
      NonOwnerStep(s.tables, w, inp);
    }
  }

  lemma OrphanUnderCreate(s: State, r: nat, inp: Input, j: Uuid)
    requires Orphan(s, j) && r in s.creators
    requires OnlyTouches(s.tables, MoveCreate(s, r, inp).tables, CreateTarget(s.creators[r]))
    ensures OrphanKept(s, MoveCreate(s, r, inp), j)
  {
    CreateTouchesFresh(s.tables, s.creators[r], inp);
  }

  lemma OrphanUnderCancel(s: State, x: nat, inp: Input, j: Uuid)
    requires Orphan(s, j) && x in s.cancellers
    ensures OrphanKept(s, MoveCancel(s, x, inp), j)
  {
    CancelEffect(s.tables, s.cancellers[x], inp);
  }

  lemma OrphanUnderMove(s: State, e: Event, j: Uuid)
    requires Inv(s) && Orphan(s, j) && Moves(s, e)
    ensures OrphanKept(s, Next(s, e), j)
  {
    if e.WorkerMoves? {
      WorkerStepLegal(s.tables, s.workers[e.h], e.inp);
      OrphanUnderWorker(s, e.h, e.inp, j);
    } else if e.CreateMoves? {
      CreateStepLegal(s.tables, s.creators[e.r], e.inp);
      OrphanUnderCreate(s, e.r, e.inp, j);
    } else {
      OrphanUnderCancel(s, e.x, e.inp, j);
    }
  }

  lemma OrphanUnderOther(s: State, e: Event, j: Uuid)
    requires Orphan(s, j) && !Moves(s, e)
    ensures OrphanKept(s, Next(s, e), j)
  {
    if e.Deliver? || e.WorkerDies? {
      WorkerEventForm(s, e);
    }
  }

  lemma OrphanOfStep(s: State, e: Event, j: Uuid)
    requires Inv(s) && Orphan(s, j)
    ensures OrphanKept(s, Next(s, e), j)
  {
    if Moves(s, e) {
      OrphanUnderMove(s, e, j);
    } else {
      OrphanUnderOther(s, e, j);
    }
  }

  lemma {:induction false} OrphanForever(s: State, events: seq<Event>, j: Uuid)
    requires Inv(s) && Orphan(s, j)
    ensures OrphanKept(s, Run(s, events), j)
    decreases |events|
  {
    if events == [] {
    } else {
      var s' := Next(s, events[0]);
      StepKeeps(s, events[0]);
      OrphanOfStep(s, events[0], j);
      if Orphan(s', j) {
        OrphanForever(s', events[1..], j);
      } else {
        RunFollows(s', events[1..]);
      }
    }
  }

  /** An orphan never moves again, however often its message is redelivered or
      republished, unless it is cancelled. */
  lemma OrphansStay(events: seq<Event>, j: Uuid, later: seq<Event>)
    requires Orphan(Reached(events), j)
    ensures OrphanKept(Reached(events), Run(Reached(events), later), j)
  {
    ReachedOK(events);
    OrphanForever(Reached(events), later, j);
  }

  // ------------------------------------------------------------- when a job is orphaned

  /** The faults that make a handler give up a job it has not finished. A lost
      reply is as bad as a dropped call wherever another call should follow. */
  predicate Fatal(p: Point, fault: Fault) {
    match p
    case FinishSucceeded => !fault.Clean?
    case RetryToFailed(_, _) => !fault.Clean?
    case RetryToRetrying(_, _) => !fault.Clean?
    case MarkCompleted => fault.Dropped?
    case MarkFailed(_) => fault.Dropped?
    case RetryToQueued(_) => fault.Dropped?
    case _ => false
  }

  // The claim goes through but its reply is lost, so that nobody owns the job.
  predicate LostClaim(t: Tables, w: Worker, inp: Input) {
    && w.phase.Loaded? && inp.fault.LostReply?
    && w.job in t.jobs && t.jobs[w.job].status == Queued && inp.attemptId !in t.attempts
  }

  // The owner's step ends its work on a job that is not cancelled.
  predicate GivesUp(t: Tables, w: Worker, inp: Input) {
    Owns(w) && w.job in t.jobs && t.jobs[w.job].status != Cancelled && Fatal(w.phase.point, inp.fault)
  }

  /** The three ways to orphan `j`: its owner dies, its owner gives up, or the
      reply of its claim is lost. */
  predicate Strands(s: State, e: Event, j: Uuid) {
    && (e.WorkerDies? || e.WorkerMoves?) && e.h in s.workers && s.workers[e.h].job == j
    && if e.WorkerDies? then Owns(s.workers[e.h]) && j in s.tables.jobs && s.tables.jobs[j].status != Cancelled
       else GivesUp(s.tables, s.workers[e.h], e.inp) || LostClaim(s.tables, s.workers[e.h], e.inp)
  }

  lemma OwnerAtWork(t: Tables, w: Worker)
    requires w.phase.Owning? && OwnerOK(t, w)
    ensures t.jobs[w.job].status != Cancelled ==> LeftAtWork(t.jobs[w.job])
  {
  }

  lemma OwnerStatusGivesUp(t: Tables, w: Worker, inp: Input)
    requires w.phase.Owning? && OwnerOK(t, w) && WritesStatus(w.phase.point)
    ensures var (t', w') := OwnerStep(t, w, inp);
            && w.job in t'.jobs
            && (!Owns(w') && LeftAtWork(t'.jobs[w.job]) <==> GivesUp(t, w, inp))
  {
  }

  lemma OwnerGivesUp(t: Tables, w: Worker, inp: Input)
    requires w.phase.Owning? && OwnerOK(t, w)
    ensures var (t', w') := OwnerStep(t, w, inp);
            && w.job in t'.jobs
            && (!Owns(w') && LeftAtWork(t'.jobs[w.job]) <==> GivesUp(t, w, inp))
  {
    if WritesStatus(w.phase.point) {
      OwnerStatusGivesUp(t, w, inp);
    }
  }

  lemma ClaimOrphans(t: Tables, w: Worker, inp: Input)
    requires !w.phase.Owning? && w.job in t.jobs && IndexOK(t)
    ensures var (t', w') := WorkerStep(t, w, inp);
            && w.job in t'.jobs
            && (t' == t || t'.jobs[w.job].status == JobStatus.Processing)
            && (t' != t && !Owns(w') <==> LostClaim(t, w, inp))
  {
    NonOwnerStep(t, w, inp);
    if w.phase.Loaded? && AllowedClaim(t, w.job, inp.attemptId) {
      ClaimForm(t, w.job, inp.attemptId);
    }
  }

  lemma OrphanedByOwner(s: State, h: nat, inp: Input)
    requires OwnersOK(s) && Exclusive(s) && h in s.workers && Owns(s.workers[h])
    ensures Orphan(MoveWorker(s, h, inp), s.workers[h].job) <==> GivesUp(s.tables, s.workers[h], inp)
  {
    var w, s' := s.workers[h], MoveWorker(s, h, inp);
    OwnerGivesUp(s.tables, w, inp);
    WorkerKeepsJob(s.tables, w, inp);
    if Owns(s'.workers[h]) {
      assert !Unowned(s', w.job);
    }
  }

  lemma OrphanedByOther(s: State, h: nat, inp: Input)
    requires IndexOK(s.tables) && OwnersOK(s) && Exclusive(s) && h in s.workers && !Owns(s.workers[h])
    requires s.workers[h].job in s.tables.jobs && !Orphan(s, s.workers[h].job)
    ensures Orphan(MoveWorker(s, h, inp), s.workers[h].job) <==> LostClaim(s.tables, s.workers[h], inp)
  {
    var w, s' := s.workers[h], MoveWorker(s, h, inp);
    ClaimOrphans(s.tables, w, inp);
    WorkerKeepsJob(s.tables, w, inp);
    if Owns(s'.workers[h]) {
      assert !Unowned(s', w.job);
    } else if s'.tables != s.tables {
      QueuedIsUnowned(s, w.job);
    } else if !Unowned(s, w.job) {
      var g :| g in s.workers && Owns(s.workers[g]) && s.workers[g].job == w.job;
      assert s'.workers[g] == s.workers[g];
    }
  }

  lemma QueuedIsUnowned(s: State, j: Uuid)
    requires OwnersOK(s) && j in s.tables.jobs && s.tables.jobs[j].status == Queued
    ensures Unowned(s, j)
  {
    forall h | h in s.workers && Owns(s.workers[h])
      ensures s.workers[h].job != j
    {
      assert OwnerOK(s.tables, s.workers[h]);
    }
  }

  // Nobody who works on `j` moved, and its row was left alone.
  ghost predicate SameForJob(s: State, s': State, j: Uuid) {
    && j in s.tables.jobs && j in s'.tables.jobs && s'.tables.jobs[j] == s.tables.jobs[j]
    && (Unowned(s', j) <==> Unowned(s, j))
  }

  lemma OthersMoveAside(s: State, h: nat, inp: Input, j: Uuid)
    requires h in s.workers && s.workers[h].job != j && j in s.tables.jobs
    requires OnlyTouches(s.tables, MoveWorker(s, h, inp).tables, s.workers[h].job)
    ensures SameForJob(s, MoveWorker(s, h, inp), j)
  {
    var s' := MoveWorker(s, h, inp);
    WorkerKeepsJob(s.tables, s.workers[h], inp);
    if !Unowned(s, j) {
      var g :| g in s.workers && Owns(s.workers[g]) && s.workers[g].job == j;
      assert s'.workers[g] == s.workers[g];
    }
  }

  lemma OrphanedByWorker(s: State, h: nat, inp: Input, j: Uuid)
    requires IndexOK(s.tables) && OwnersOK(s) && Exclusive(s) && h in s.workers && j in s.tables.jobs && !Orphan(s, j)
    requires OnlyTouches(s.tables, MoveWorker(s, h, inp).tables, s.workers[h].job)
    ensures Orphan(MoveWorker(s, h, inp), j) <==> Strands(s, WorkerMoves(h, inp), j)
  {
    if s.workers[h].job != j {
      OthersMoveAside(s, h, inp, j);
    } else if Owns(s.workers[h]) {
      OrphanedByOwner(s, h, inp);
    } else {
      OrphanedByOther(s, h, inp);
    }
  }

  lemma OrphanedByDeath(s: State, h: nat, j: Uuid)
    requires OwnersOK(s) && Exclusive(s) && j in s.tables.jobs && !Orphan(s, j)
    ensures Orphan(Next(s, WorkerDies(h)), j) <==> Strands(s, WorkerDies(h), j)
  {
    var s' := Next(s, WorkerDies(h));
    if h in s.workers && Owns(s.workers[h]) && s.workers[h].job == j {
      OwnerAtWork(s.tables, s.workers[h]);
    } else if !Unowned(s, j) {
      var g :| g in s.workers && Owns(s.workers[g]) && s.workers[g].job == j;
      assert s'.workers[g] == s.workers[g];
    }
  }

  // Only a handler's own events change who owns what.
  lemma OwnershipAside(s: State, e: Event, j: Uuid)
    requires !e.WorkerMoves? && !e.WorkerDies?
    ensures Unowned(Next(s, e), j) <==> Unowned(s, j)
  {
    if !Unowned(s, j) {
      var g :| g in s.workers && Owns(s.workers[g]) && s.workers[g].job == j;
      assert Next(s, e).workers[g] == s.workers[g];
    }
  }

  lemma CreateLeavesWork(t: Tables, c: Creator, inp: Input, j: Uuid)
    requires j in t.jobs
    ensures var t' := CreateStep(t, c, inp).0;
            j in t'.jobs && (t'.jobs[j] == t.jobs[j] || t'.jobs[j].status == Queued)
  {
    CreateForm(t, c, inp);
    if c.phase.Inserting? {
      InsertForm(t, c.req.job, c.req.key, c.req.hash);
    }
  }

  // Requests move a job only to QUEUED or CANCELLED; other events leave the tables alone.
  lemma RequestsLeaveWork(s: State, e: Event, j: Uuid)
    requires j in s.tables.jobs && !e.WorkerMoves?
    ensures var rows := Next(s, e).tables.jobs;
            j in rows && (rows[j] == s.tables.jobs[j] || rows[j].status in {Queued, Cancelled})
  {
    if !Moves(s, e) {
      UnmovedTables(s, e);
    } else if e.CreateMoves? {
      CreateLeavesWork(s.tables, s.creators[e.r], e.inp, j);
    } else {
      CancelEffect(s.tables, s.cancellers[e.x], e.inp);
    }
  }

  lemma RequestsOrphanNobody(s: State, e: Event, j: Uuid)
    requires j in s.tables.jobs && !Orphan(s, j) && !e.WorkerMoves? && !e.WorkerDies?
    ensures !Orphan(Next(s, e), j)
  {
    OwnershipAside(s, e, j);
    RequestsLeaveWork(s, e, j);
  }

  /** One step orphans a job exactly when it is one of the three ways. */
  lemma OrphanedExactly(s: State, e: Event, j: Uuid)
    requires Inv(s) && j in s.tables.jobs && !Orphan(s, j)
    ensures Orphan(Next(s, e), j) <==> Strands(s, e, j)
  {
    if e.WorkerMoves? {
      if e.h in s.workers {
        WorkerStepLegal(s.tables, s.workers[e.h], e.inp);
        OrphanedByWorker(s, e.h, e.inp, j);
      }
    } else if e.WorkerDies? {
      OrphanedByDeath(s, e.h, j);
    } else {
      RequestsOrphanNobody(s, e, j);
    }
  }

  predicate EverStranded(s: State, events: seq<Event>, j: Uuid)
    decreases |events|
  {
    events != [] && (Strands(s, events[0], j) || EverStranded(Next(s, events[0]), events[1..], j))
  }

  // Still waiting for somebody to come, unless a cancel request does.
  predicate NotCancelled(s: State, j: Uuid) { j in s.tables.jobs && s.tables.jobs[j].status != Cancelled }

  lemma NewRowsArePending(t: Tables, t': Tables, j: Uuid)
    requires Evolves(t, t') && j !in t.jobs && j in t'.jobs
    ensures !LeftAtWork(t'.jobs[j])
  {
  }

  lemma NewRowsAreNoOrphans(s: State, s': State, e: Event, j: Uuid)
    requires Evolves(s.tables, s'.tables) && j !in s.tables.jobs
    ensures !Orphan(s', j) && !Strands(s, e, j)
  {
    if j in s'.tables.jobs {
      NewRowsArePending(s.tables, s'.tables, j);
    }
  }

  lemma StepEvolves(s: State, e: Event)
    requires Inv(s)
    ensures Evolves(s.tables, Next(s, e).tables)
  {
    StepKeeps(s, e);
  }

  lemma OrphansOfStep(s: State, e: Event, j: Uuid)
    requires Inv(s) && !Orphan(s, j)
    ensures Orphan(Next(s, e), j) <==> Strands(s, e, j)
  {
    if j in s.tables.jobs {
      OrphanedExactly(s, e, j);
    } else {
      StepEvolves(s, e);
      NewRowsAreNoOrphans(s, Next(s, e), e, j);
    }
  }

  lemma {:induction false} OrphansOfRun(s: State, events: seq<Event>, j: Uuid)
    requires Inv(s) && !Orphan(s, j)
    ensures Orphan(Run(s, events), j) <==> NotCancelled(Run(s, events), j) && EverStranded(s, events, j)
    decreases |events|
  {
    if events == [] {
    } else {
      var s', rest := Next(s, events[0]), events[1..];
      StepKeeps(s, events[0]);
      OrphansOfStep(s, events[0], j);
      if Orphan(s', j) {
        OrphanForever(s', rest, j);
        OrphanOrCancelled(Run(s', rest), j);
      } else {
        OrphansOfRun(s', rest, j);
        OrphanOrCancelled(Run(s', rest), j);
      }
    }
  }

  lemma OrphanOrCancelled(s: State, j: Uuid)
    ensures Orphan(s, j) ==> NotCancelled(s, j)
  {
  }

  /** Exactly the lost jobs: at the end of a run a job is an orphan if and only if
      it was not cancelled and, somewhere in the run, its owner died, its owner
      gave it up, or the reply of its claim was lost. */
  lemma OrphansExactly(events: seq<Event>, j: Uuid)
    ensures Orphan(Reached(events), j) <==> NotCancelled(Reached(events), j) && EverStranded(Initial(), events, j)
  {
    InitialOK();
    OrphansOfRun(Initial(), events, j);
  }

  // No handler dies and no store call of a handler meets a fault.
  predicate Calm(events: seq<Event>) {
    forall i :: 0 <= i < |events| ==>
      !events[i].WorkerDies? && (events[i].WorkerMoves? ==> events[i].inp.fault.Clean?)
  }

  lemma {:induction false} CalmStrandsNobody(s: State, events: seq<Event>, j: Uuid)
    requires Calm(events)
    ensures !EverStranded(s, events, j)
    decreases |events|
  {
    if events == [] {
    } else {
      assert !Strands(s, events[0], j);
      CalmStrandsNobody(Next(s, events[0]), events[1..], j);
    }
  }

  /** Without deaths and faults a job at PROCESSING or RETRYING has an owner, and
      so has a FAILED one unless its failure is final; duplicates, cancels and
      republishes lose nothing. */
  lemma CalmRunsLoseNothing(events: seq<Event>, j: Uuid)
    requires Calm(events) && j in Reached(events).tables.jobs
    ensures var s := Reached(events);
            Unowned(s, j) ==>
              && s.tables.jobs[j].status != JobStatus.Processing && s.tables.jobs[j].status != Retrying
              && (s.tables.jobs[j].status == Failed ==> FailedForGood(s.tables.jobs[j]))
  {
    OrphansExactly(events, j);
    CalmStrandsNobody(Initial(), events, j);
  }

  // ------------------------------------------------------------- finished work that is lost

  /** The attempt SUCCEEDED and its result is recorded, yet the job is PROCESSING
      and nobody is left to complete it. */
  ghost predicate WorkLost(s: State, j: Uuid) {
    && j in s.tables.jobs && Unowned(s, j)
    && s.tables.jobs[j].status == JobStatus.Processing && LastAttemptSucceeded(s.tables, j)
  }

  /** The three ways to lose finished work: the reply of the finish is lost, the
      completion is dropped, or the handler dies between the two. */
  predicate LosesWork(s: State, e: Event, j: Uuid) {
    && (e.WorkerDies? || e.WorkerMoves?) && e.h in s.workers && s.workers[e.h].job == j && Owns(s.workers[e.h])
    && j in s.tables.jobs && s.tables.jobs[j].status == JobStatus.Processing
    && var p := s.workers[e.h].phase.point;
       if e.WorkerDies? then p.MarkCompleted?
       else (p.FinishSucceeded? && e.inp.fault.LostReply?) || (p.MarkCompleted? && e.inp.fault.Dropped?)
  }

  lemma OwnerLosesWork(t: Tables, w: Worker, inp: Input)
    requires w.phase.Owning? && OwnerOK(t, w) && GivesUp(t, w, inp)
    ensures var t' := OwnerStep(t, w, inp).0;
            && w.job in t'.jobs
            && (t'.jobs[w.job].status == JobStatus.Processing && LastAttemptSucceeded(t', w.job) <==>
                  && t.jobs[w.job].status == JobStatus.Processing
                  && ((w.phase.point.FinishSucceeded? && inp.fault.LostReply?) || w.phase.point.MarkCompleted?))
  {
  }

  lemma ClaimLosesNoWork(t: Tables, w: Worker, inp: Input)
    requires !w.phase.Owning? && IndexOK(t) && LostClaim(t, w, inp)
    ensures w.job in WorkerStep(t, w, inp).0.jobs && !LastAttemptSucceeded(WorkerStep(t, w, inp).0, w.job)
  {
    ClaimForm(t, w.job, inp.attemptId);
  }

  lemma DeathLosesWork(t: Tables, w: Worker)
    requires w.phase.Owning? && OwnerOK(t, w) && t.jobs[w.job].status == JobStatus.Processing
    ensures LastAttemptSucceeded(t, w.job) <==> w.phase.point.MarkCompleted?
  {
  }

  lemma OrphanedWork(s: State, j: Uuid)
    requires j in s.tables.jobs && Orphan(s, j)
    ensures WorkLost(s, j) <==> s.tables.jobs[j].status == JobStatus.Processing && LastAttemptSucceeded(s.tables, j)
  {
  }

  // A step that orphans a job loses finished work in the three ways only.
  lemma StrandedWork(s: State, e: Event, j: Uuid)
    requires IndexOK(s.tables) && OwnersOK(s) && j in s.tables.jobs && Strands(s, e, j) && Orphan(Next(s, e), j)
    ensures WorkLost(Next(s, e), j) <==> LosesWork(s, e, j)
  {
    var w := s.workers[e.h];
    OrphanedWork(Next(s, e), j);
    if Owns(w) {
      assert OwnerOK(s.tables, w);
      if e.WorkerMoves? {
        OwnerLosesWork(s.tables, w, e.inp);
      } else if s.tables.jobs[j].status == JobStatus.Processing {
        DeathLosesWork(s.tables, w);
      }
    } else {
      ClaimLosesNoWork(s.tables, w, e.inp);
    }
  }

  // Attempts of a job are touched only by steps that concern the job.
  lemma AttemptOfOther(t: Tables, t': Tables, k: Uuid, j: Uuid)
    requires OnlyTouches(t, t', k) && k != j && j in t.jobs
    requires NumbersDense(t) && IndexPoints(t) && 1 <= t.jobs[j].attemptCount
    ensures j in t'.jobs && (LastAttemptSucceeded(t', j) <==> LastAttemptSucceeded(t, j))
  {
    assert (j, t.jobs[j].attemptCount) in t.attemptIndex;
  }

  lemma OrphanAttemptUnderWorker(s: State, h: nat, inp: Input, j: Uuid)
    requires IndexOK(s.tables) && JobsOK(s.tables) && Orphan(s, j) && h in s.workers
    requires OnlyTouches(s.tables, MoveWorker(s, h, inp).tables, s.workers[h].job)
    ensures var t' := MoveWorker(s, h, inp).tables;
            j in t'.jobs && (LastAttemptSucceeded(t', j) <==> LastAttemptSucceeded(s.tables, j))
  {
    if s.workers[h].job != j {
      assert RowOK(s.tables.jobs[j]);
      AttemptOfOther(s.tables, MoveWorker(s, h, inp).tables, s.workers[h].job, j);
    } else {
      NonOwnerStep(s.tables, s.workers[h], inp);
    }
  }

  lemma CreateLeavesAttempts(t: Tables, c: Creator, inp: Input)
    ensures var t' := CreateStep(t, c, inp).0;
            t'.attempts == t.attempts && t'.attemptIndex == t.attemptIndex
  {
    CreateForm(t, c, inp);
  }

  // An orphan's last attempt is nobody's to finish.
  lemma OrphanAttemptKept(s: State, e: Event, j: Uuid)
    requires TablesOK(s.tables) && OwnersOK(s) && Orphan(s, j)
    requires j in Next(s, e).tables.jobs && Next(s, e).tables.jobs[j] == s.tables.jobs[j]
    ensures LastAttemptSucceeded(Next(s, e).tables, j) <==> LastAttemptSucceeded(s.tables, j)
  {
    if !Moves(s, e) {
      UnmovedTables(s, e);
    } else if e.WorkerMoves? {
      WorkerStepLegal(s.tables, s.workers[e.h], e.inp);
      OrphanAttemptUnderWorker(s, e.h, e.inp, j);
    } else if e.CreateMoves? {
      CreateLeavesAttempts(s.tables, s.creators[e.r], e.inp);
    } else {
      CancelEffect(s.tables, s.cancellers[e.x], e.inp);
    }
  }

  // What may become of an orphan in one step: nothing, or a cancel.
  ghost predicate WorkKept(s: State, s': State, j: Uuid) {
    && j in s'.tables.jobs
    && (s'.tables.jobs[j].status == Cancelled || (Orphan(s', j) && (WorkLost(s', j) <==> WorkLost(s, j))))
  }

  lemma SameOrphanSameWork(s: State, s': State, j: Uuid)
    requires Orphan(s, j) && Orphan(s', j) && s'.tables.jobs[j] == s.tables.jobs[j]
    requires LastAttemptSucceeded(s'.tables, j) <==> LastAttemptSucceeded(s.tables, j)
    ensures WorkKept(s, s', j)
  {
    OrphanedWork(s, j);
    OrphanedWork(s', j);
  }

  lemma OrphanWorkKept(s: State, e: Event, j: Uuid)
    requires Inv(s) && Orphan(s, j)
    ensures WorkKept(s, Next(s, e), j)
  {
    OrphanOfStep(s, e, j);
    if Orphan(Next(s, e), j) && Next(s, e).tables.jobs[j] == s.tables.jobs[j] {
      OrphanAttemptKept(s, e, j);
      SameOrphanSameWork(s, Next(s, e), j);
    }
  }

  lemma OrphanLosesNothing(s: State, e: Event, j: Uuid)
    requires Orphan(s, j)
    ensures !LosesWork(s, e, j)
  {
  }

  lemma UnstrandedLosesNothing(s: State, e: Event, j: Uuid)
    requires !Strands(s, e, j)
    ensures !LosesWork(s, e, j)
  {
  }

  lemma LostWorkIsOrphaned(s: State, j: Uuid)
    requires WorkLost(s, j)
    ensures Orphan(s, j) && NotCancelled(s, j)
  {
  }

  lemma StrandingLosesWork(s: State, e: Event, j: Uuid)
    requires Inv(s) && Strands(s, e, j) && Orphan(Next(s, e), j)
    ensures WorkLost(Next(s, e), j) <==> LosesWork(s, e, j)
  {
    StrandedWork(s, e, j);
  }

  /** One step loses finished work exactly when it is one of the three ways. */
  lemma WorkLostExactly(s: State, e: Event, j: Uuid)
    requires Inv(s) && !WorkLost(s, j)
    ensures WorkLost(Next(s, e), j) <==> LosesWork(s, e, j)
  {
    if WorkLost(Next(s, e), j) {
      LostWorkIsOrphaned(Next(s, e), j);
    }
    if Orphan(s, j) {
      OrphanWorkKept(s, e, j);
      OrphanLosesNothing(s, e, j);
    } else {
      OrphansOfStep(s, e, j);
      if Strands(s, e, j) {
        StrandingLosesWork(s, e, j);
      } else {
        UnstrandedLosesNothing(s, e, j);
      }
    }
  }

  predicate EverLosesWork(s: State, events: seq<Event>, j: Uuid)
    decreases |events|
  {
    events != [] && (LosesWork(s, events[0], j) || EverLosesWork(Next(s, events[0]), events[1..], j))
  }

  // Lost work stays lost.
  lemma {:induction false} WorkLostForever(s: State, events: seq<Event>, j: Uuid)
    requires Inv(s) && WorkLost(s, j)
    ensures NotCancelled(Run(s, events), j) <==> WorkLost(Run(s, events), j)
    decreases |events|
  {
    if events == [] {
    } else {
      var s' := Next(s, events[0]);
      LostWorkIsOrphaned(s, j);
      OrphanWorkKept(s, events[0], j);
      StepKeeps(s, events[0]);
      if WorkLost(s', j) {
        WorkLostForever(s', events[1..], j);
      } else {
        RunFollows(s', events[1..]);
      }
    }
  }

  lemma {:induction false} WorkLostOfRun(s: State, events: seq<Event>, j: Uuid)
    requires Inv(s) && !WorkLost(s, j)
    ensures WorkLost(Run(s, events), j) <==> NotCancelled(Run(s, events), j) && EverLosesWork(s, events, j)
    decreases |events|
  {
    if events == [] {
    } else {
      var s', rest := Next(s, events[0]), events[1..];
      WorkLostExactly(s, events[0], j);
      StepKeeps(s, events[0]);
      if WorkLost(s', j) {
        WorkLostForever(s', rest, j);
      } else {
        WorkLostOfRun(s', rest, j);
      }
    }
  }

  /** The finish and the completion are two statements, not the one transaction
      the documentation describes. Exactly: at the end of a run a job is PROCESSING
      for ever with its work done if and only if it was not cancelled and, somewhere
      in the run, the reply of its owner's finish was lost, its owner's completion
      was dropped, or its owner died between the two. */
  lemma WorkLostInRun(events: seq<Event>, j: Uuid, later: seq<Event>)
    ensures WorkLost(Reached(events), j) <==> NotCancelled(Reached(events), j) && EverLosesWork(Initial(), events, j)
    ensures WorkLost(Reached(events), j) ==>
              (WorkLost(Run(Reached(events), later), j) <==> NotCancelled(Run(Reached(events), later), j))
  {
    InitialOK();
    WorkLostOfRun(Initial(), events, j);
    ReachedOK(events);
    if WorkLost(Reached(events), j) {
      WorkLostForever(Reached(events), later, j);
    }
  }

  // ------------------------------------------------------- acknowledged but not at an end

  lemma CompleteLeaves(t: Tables, w: Worker, inp: Input)
    requires w.phase.Owning? && OwnerOK(t, w)
    requires OwnerStep(t, w, inp).1.phase == Done(Complete, true)
    ensures var t' := OwnerStep(t, w, inp).0;
            && w.job in t'.jobs
            && (t'.jobs[w.job].status in {Completed, Cancelled, Failed} <==>
                  !(w.phase.point.MarkFailed? && inp.fault.Dropped? && t.jobs[w.job].status == JobStatus.Processing))
  {
    if WritesStatus(w.phase.point) {
      OwnerStatusStep(t, w, inp);
    }
  }

  /** Without that condition Complete is not enough: markFailed swallows the
      error of its write. A claiming handler's Complete leaves the job at an end
      status if and only if it was not a dropped markFailed of a job still
      PROCESSING. */
  lemma CompleteExactly(events: seq<Event>, h: nat, inp: Input)
    requires h in Reached(events).workers && Owns(Reached(events).workers[h])
    requires MoveWorker(Reached(events), h, inp).workers[h].phase == Done(Complete, true)
    ensures var s, s' := Reached(events), MoveWorker(Reached(events), h, inp);
            var w := s.workers[h];
            && w.job in s.tables.jobs && w.job in s'.tables.jobs
            && (s'.tables.jobs[w.job].status in {Completed, Cancelled, Failed} <==>
                  !(w.phase.point.MarkFailed? && inp.fault.Dropped?
                    && s.tables.jobs[w.job].status == JobStatus.Processing))
  {
    ReachedOK(events);
    CompleteLeaves(Reached(events).tables, Reached(events).workers[h], inp);
  }
}
