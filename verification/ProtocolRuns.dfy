/** Results about whole runs: the attempt history when every finish is recorded, and the total retry delay. */
module ProtocolRuns {
  import opened GoTypes
  import opened Domain
  import opened Store
  import opened Protocol
  import opened ProtocolInvariant
  import opened ProtocolSteps
  import opened ProtocolPreservation
  import opened ProtocolTheorems
  import Backoff

  // ------------------------------------------------------- runs in which finishes are recorded

  predicate Finishing(p: Point) { p.FinishSucceeded? || p.FinishFailed? }

  // The event does not drop an owner's FinishAttempt.
  predicate RecordsFinish(s: State, e: Event) {
    e.WorkerMoves? && e.h in s.workers && Owns(s.workers[e.h]) && Finishing(s.workers[e.h].phase.point)
    ==> !e.inp.fault.Dropped?
  }

  predicate AllFinishesRecorded(s: State, events: seq<Event>)
    decreases |events|
  {
    events == [] || (RecordsFinish(s, events[0]) && AllFinishesRecorded(Next(s, events[0]), events[1..]))
  }

  ghost predicate RunningOK(t: Tables) {
    forall a :: a in t.attempts && t.attempts[a].status == Running ==>
      var j := t.attempts[a].job;
      && j in t.jobs
      && t.attempts[a].number == t.jobs[j].attemptCount
      && (t.jobs[j].status == JobStatus.Processing || t.jobs[j].status == Cancelled)
  }

  predicate AfterFinish(p: Point) {
    p.Recheck? || p.MarkFailed? || p.RetryToFailed? || p.RetryToRetrying? || p.RetryToQueued?
  }

  // An owner past FinishAttempt has no RUNNING row.
  predicate FinishedOwner(t: Tables, w: Worker) {
    w.phase.Owning? && AfterFinish(w.phase.point) ==>
      w.phase.attempt in t.attempts && t.attempts[w.phase.attempt].status != Running
  }

  ghost predicate HistoryOK(s: State) {
    RunningOK(s.tables) && forall h :: h in s.workers ==> FinishedOwner(s.tables, s.workers[h])
  }

  lemma OwnerStatusKeepsRunning(t: Tables, w: Worker, inp: Input)
    requires w.phase.Owning? && OwnerOK(t, w) && WritesStatus(w.phase.point)
    requires RowsIndexed(t) && RunningOK(t) && FinishedOwner(t, w)
    ensures RunningOK(OwnerStep(t, w, inp).0)
  {
    OwnerStatusStep(t, w, inp);
  }

  lemma OwnerOtherKeepsRunning(t: Tables, w: Worker, inp: Input)
    requires w.phase.Owning? && OwnerOK(t, w) && !WritesStatus(w.phase.point)
    requires RunningOK(t)
    ensures RunningOK(OwnerStep(t, w, inp).0)
  {
  }

  lemma OwnerStaysFinished(t: Tables, w: Worker, inp: Input)
    requires w.phase.Owning? && OwnerOK(t, w) && FinishedOwner(t, w)
    requires Finishing(w.phase.point) ==> !inp.fault.Dropped?
    ensures FinishedOwner(OwnerStep(t, w, inp).0, OwnerStep(t, w, inp).1)
  {
    if WritesStatus(w.phase.point) {
      OwnerStatusStep(t, w, inp);
      OwnerStatusStaysFinished(t, w, inp);
    }
  }

  lemma OwnerStatusStaysFinished(t: Tables, w: Worker, inp: Input)
    requires w.phase.Owning? && OwnerOK(t, w) && FinishedOwner(t, w) && WritesStatus(w.phase.point)
    ensures FinishedOwner(OwnerStep(t, w, inp).0, OwnerStep(t, w, inp).1)
  {
  }

  lemma ClaimKeepsRunning(t: Tables, j: Uuid, a: Uuid)
    requires RunningOK(t) && AllowedClaim(t, j, a) && ClaimTx(t, j, a).1.Ok?
    ensures RunningOK(ClaimTx(t, j, a).0)
  {
  }

  lemma WorkerKeepsRunning(t: Tables, w: Worker, inp: Input)
    requires IndexOK(t) && (w.phase.Owning? ==> OwnerOK(t, w)) && RunningOK(t) && FinishedOwner(t, w)
    requires w.phase.Owning? && Finishing(w.phase.point) ==> !inp.fault.Dropped?
    ensures var (t', w') := WorkerStep(t, w, inp);
            RunningOK(t') && FinishedOwner(t', w')
  {
    if w.phase.Owning? {
      OwnerStaysFinished(t, w, inp);
      if WritesStatus(w.phase.point) {
        OwnerStatusKeepsRunning(t, w, inp);
      } else {
        OwnerOtherKeepsRunning(t, w, inp);
      }
    } else {
      NonOwnerStep(t, w, inp);
      NonOwnerStartsAtPipeline(t, w, inp);
      if WorkerStep(t, w, inp).0 != t {
        ClaimForm(t, w.job, inp.attemptId);
        ClaimKeepsRunning(t, w.job, inp.attemptId);
      }
    }
  }

  lemma NonOwnerStartsAtPipeline(t: Tables, w: Worker, inp: Input)
    requires !w.phase.Owning?
    ensures var w' := WorkerStep(t, w, inp).1; w'.phase.Owning? ==> w'.phase.point.RunPipeline?
  {
  }

  lemma WorkerMoveKeepsHistory(s: State, h: nat, inp: Input)
    requires IndexOK(s.tables) && OwnersOK(s) && HistoryOK(s) && h in s.workers && RecordsFinish(s, WorkerMoves(h, inp))
    requires Evolves(s.tables, MoveWorker(s, h, inp).tables)
    ensures HistoryOK(MoveWorker(s, h, inp))
  {
    MoverKeepsHistory(s, h, inp);
    OthersStayFinished(s, MoveWorker(s, h, inp), h);
    HistoryByParts(MoveWorker(s, h, inp), h);
  }

  lemma MoverKeepsHistory(s: State, h: nat, inp: Input)
    requires IndexOK(s.tables) && OwnersOK(s) && HistoryOK(s) && h in s.workers && RecordsFinish(s, WorkerMoves(h, inp))
    ensures var s' := MoveWorker(s, h, inp);
            RunningOK(s'.tables) && FinishedOwner(s'.tables, s'.workers[h])
  {
    assert FinishedOwner(s.tables, s.workers[h]);
    WorkerKeepsRunning(s.tables, s.workers[h], inp);
  }

  lemma HistoryByParts(s: State, h: nat)
    requires RunningOK(s.tables) && h in s.workers && FinishedOwner(s.tables, s.workers[h])
    requires forall g :: g in s.workers && g != h ==> FinishedOwner(s.tables, s.workers[g])
    ensures HistoryOK(s)
  {
  }

  lemma OthersStayFinished(s: State, s': State, h: nat)
    requires Evolves(s.tables, s'.tables)
    requires forall g :: g in s.workers ==> FinishedOwner(s.tables, s.workers[g])
    requires forall g :: g in s'.workers && g != h ==> g in s.workers && s'.workers[g] == s.workers[g]
    ensures forall g :: g in s'.workers && g != h ==> FinishedOwner(s'.tables, s'.workers[g])
  {
  }

  lemma AddRowKeepsRunning(t: Tables, j: Uuid, row: JobRow, keys: map<GoString, KeyRow>)
    requires RunningOK(t) && j !in t.jobs
    ensures RunningOK(AddRow(t, j, row, keys))
  {
  }

  lemma RequestWriteKeepsRunning(t: Tables, j: Uuid, from: JobStatus, to: JobStatus, fault: Fault)
    requires RunningOK(t) && ((from == Pending && to == Queued) || to == Cancelled)
    ensures RunningOK(UpdateJobStatus(t, j, from, To(to), fault).0)
  {
  }

  lemma CreateKeepsRunning(t: Tables, c: Creator, inp: Input)
    requires RunningOK(t)
    ensures RunningOK(CreateStep(t, c, inp).0)
  {
    CreateForm(t, c, inp);
    if c.phase.Inserting? {
      InsertForm(t, c.req.job, c.req.key, c.req.hash);
      if CreateStep(t, c, inp).0 != t {
        AddRowKeepsRunning(t, c.req.job.id, FreshRow(c.req.job), KeysAfter(t, c.req.job, c.req.key, c.req.hash));
      }
    } else if c.phase.Enqueuing? {
      RequestWriteKeepsRunning(t, c.phase.id, Pending, Queued, inp.fault);
    }
  }

  lemma CancelKeepsRunning(t: Tables, c: Canceller, inp: Input)
    requires RunningOK(t)
    ensures RunningOK(CancelStep(t, c, inp).0)
  {
    CancelForm(t, c, inp);
    if c.phase.Trying? {
      RequestWriteKeepsRunning(t, c.job, c.phase.seen, Cancelled, inp.fault);
    }
  }

  lemma RequestMoveKeepsHistory(s: State, s': State)
    requires Evolves(s.tables, s'.tables) && RunningOK(s'.tables) && HistoryOK(s) && s'.workers == s.workers
    ensures HistoryOK(s')
  {
  }

  lemma WorkerEventKeepsHistory(s: State, e: Event)
    requires HistoryOK(s) && (e.Deliver? || e.WorkerDies?)
    ensures HistoryOK(Next(s, e))
  {
  }

  lemma StepKeepsHistory(s: State, e: Event)
    requires Inv(s) && HistoryOK(s) && RecordsFinish(s, e)
    ensures HistoryOK(Next(s, e))
  {
    if e.WorkerMoves? {
      if e.h in s.workers {
        WorkerMoveKeeps(s, e.h, e.inp);
        WorkerMoveKeepsHistory(s, e.h, e.inp);
      }
    } else if e.Deliver? || e.WorkerDies? {
      WorkerEventKeepsHistory(s, e);
    } else {
      RequestEventKeepsHistory(s, e);
    }
  }

  lemma CreateMoveKeepsHistory(s: State, r: nat, inp: Input)
    requires Inv(s) && HistoryOK(s) && r in s.creators
    ensures HistoryOK(MoveCreate(s, r, inp))
  {
    CreateMoveKeeps(s, r, inp);
    CreateKeepsRunning(s.tables, s.creators[r], inp);
    RequestMoveKeepsHistory(s, MoveCreate(s, r, inp));
  }

  lemma CancelMoveKeepsHistory(s: State, x: nat, inp: Input)
    requires Inv(s) && HistoryOK(s) && x in s.cancellers
    ensures HistoryOK(MoveCancel(s, x, inp))
  {
    CancelMoveKeeps(s, x, inp);
    CancelKeepsRunning(s.tables, s.cancellers[x], inp);
    RequestMoveKeepsHistory(s, MoveCancel(s, x, inp));
  }

  // Events that are neither moves nor concern workers.
  predicate Aside(s: State, e: Event) { !Moves(s, e) && !e.Deliver? && !e.WorkerDies? }

  lemma AsideForm(s: State, e: Event)
    requires Aside(s, e)
    ensures Next(s, e).tables == s.tables && Next(s, e).workers == s.workers
  {
  }

  lemma RequestEventKeepsHistory(s: State, e: Event)
    requires Inv(s) && HistoryOK(s) && !e.WorkerMoves? && !e.Deliver? && !e.WorkerDies?
    ensures HistoryOK(Next(s, e))
  {
    if Aside(s, e) {
      AsideForm(s, e);
      UnchangedEvolves(s.tables);
      RequestMoveKeepsHistory(s, Next(s, e));
    } else if e.CreateMoves? {
      CreateMoveKeepsHistory(s, e.r, e.inp);
    } else {
      CancelMoveKeepsHistory(s, e.x, e.inp);
    }
  }

  lemma {:induction false} RunKeepsHistory(s: State, events: seq<Event>)
    requires Inv(s) && HistoryOK(s) && AllFinishesRecorded(s, events)
    ensures HistoryOK(Run(s, events))
    decreases |events|
  {
    if events == [] {
    } else {
      StepKeeps(s, events[0]);
      StepKeepsHistory(s, events[0]);
      RunKeepsHistory(Next(s, events[0]), events[1..]);
    }
  }

  /** When no FinishAttempt is dropped, the only attempt of a job that can still
      be RUNNING is its last, and only while the job is PROCESSING or CANCELLED. */
  lemma OnlyLastRuns(events: seq<Event>, a: Uuid)
    requires AllFinishesRecorded(Initial(), events)
    requires a in Reached(events).tables.attempts && Reached(events).tables.attempts[a].status == Running
    ensures var t := Reached(events).tables;
            var j := t.attempts[a].job;
            && j in t.jobs && t.attempts[a].number == t.jobs[j].attemptCount
            && t.jobs[j].status in {JobStatus.Processing, Cancelled}
  {
    InitialOK();
    RunKeepsHistory(Initial(), events);
  }

  // ----------------------------------------------------------------------- total retry delay

  // The handler's next step is the recheck that decides to retry, and the delay it draws then.
  predicate DecidesRetry(t: Tables, w: Worker, inp: Input) {
    && Owns(w) && w.phase.point.Recheck?
    && var w' := AfterRecheck(w, GetJob(t, w.job, inp.fault), w.phase.point.err, inp.draw);
       w'.phase.Owning? && w'.phase.point.RetryToFailed?
  }

  function DrawnDelay(t: Tables, w: Worker, inp: Input): int
    requires DecidesRetry(t, w, inp)
  {
    AfterRecheck(w, GetJob(t, w.job, inp.fault), w.phase.point.err, inp.draw).phase.point.delay
  }

  predicate SchedulesRetry(s: State, e: Event, j: Uuid) {
    e.WorkerMoves? && e.h in s.workers && s.workers[e.h].job == j && DecidesRetry(s.tables, s.workers[e.h], e.inp)
  }

  // How many retries of `j` a run schedules, and the sum of their delays.
  function RetriesScheduled(s: State, events: seq<Event>, j: Uuid): nat
    decreases |events|
  {
    if events == [] then 0
    else (if SchedulesRetry(s, events[0], j) then 1 else 0) + RetriesScheduled(Next(s, events[0]), events[1..], j)
  }

  function TotalDelay(s: State, events: seq<Event>, j: Uuid): int
    decreases |events|
  {
    if events == [] then 0
    else
      (if SchedulesRetry(s, events[0], j) then DrawnDelay(s.tables, s.workers[events[0].h], events[0].inp) else 0)
      + TotalDelay(Next(s, events[0]), events[1..], j)
  }

  predicate Undecided(p: Point) { !AfterFinish(p) || p.Recheck? }

  // A handler owns the job, has attempts left and has not yet decided about a retry.
  predicate MayRetry(w: Worker, j: Uuid) {
    w.job == j && Owns(w) && Undecided(w.phase.point) && w.phase.row.attemptCount < w.phase.row.maxAttempts
  }

  ghost predicate SomeMayRetry(s: State, j: Uuid) { exists h :: h in s.workers && MayRetry(s.workers[h], j) }

  // How many more retries can still be scheduled for the job.
  ghost function Slots(s: State, j: Uuid): int
    requires j in s.tables.jobs
  {
    var row := s.tables.jobs[j];
    (if row.attemptCount < row.maxAttempts then row.maxAttempts - 1 - row.attemptCount else 0)
    + (if SomeMayRetry(s, j) then 1 else 0)
  }

  // The slots of `j` pay for a retry the step schedules.
  ghost predicate Paid(s: State, s': State, retried: bool, j: Uuid) {
    && j in s.tables.jobs && j in s'.tables.jobs
    && (if retried then Slots(s', j) + 1 <= Slots(s, j) else Slots(s', j) <= Slots(s, j))
  }

  lemma SlotsUnderOtherJob(s: State, s': State, h: nat, j: Uuid)
    requires h in s.workers && h in s'.workers
    requires s' == s.(tables := s'.tables, workers := s.workers[h := s'.workers[h]])
    requires j in s.tables.jobs && j in s'.tables.jobs && s'.tables.jobs[j] == s.tables.jobs[j]
    requires MayRetry(s'.workers[h], j) ==> MayRetry(s.workers[h], j)
    ensures Slots(s', j) <= Slots(s, j)
  {
    if SomeMayRetry(s', j) {
      var g :| g in s'.workers && MayRetry(s'.workers[g], j);
      assert g in s.workers && MayRetry(s.workers[g], j);
    }
  }

  // Points only move forward, and a decision to retry spends the owner's slot.
  lemma OwnerSpends(t: Tables, w: Worker, inp: Input)
    requires w.phase.Owning?
    ensures var w' := OwnerStep(t, w, inp).1;
            && w'.job == w.job
            && (MayRetry(w', w.job) ==> MayRetry(w, w.job))
            && (DecidesRetry(t, w, inp) ==> MayRetry(w, w.job) && !MayRetry(w', w.job))
  {
  }

  lemma OwnerKeepsCounters(t: Tables, w: Worker, inp: Input)
    requires w.phase.Owning? && w.job in t.jobs
    ensures var t' := OwnerStep(t, w, inp).0;
            && w.job in t'.jobs
            && t'.jobs[w.job].attemptCount == t.jobs[w.job].attemptCount
            && t'.jobs[w.job].maxAttempts == t.jobs[w.job].maxAttempts
  {
    if WritesStatus(w.phase.point) {
      OwnerStatusStep(t, w, inp);
    }
  }

  lemma DelayUnderOwner(s: State, h: nat, inp: Input)
    requires OwnersOK(s) && Exclusive(s) && h in s.workers && Owns(s.workers[h])
    ensures Paid(s, MoveWorker(s, h, inp), DecidesRetry(s.tables, s.workers[h], inp), s.workers[h].job)
  {
    var w, s' := s.workers[h], MoveWorker(s, h, inp);
    var j := w.job;
    assert OwnerOK(s.tables, w);
    OwnerSpends(s.tables, w, inp);
    OwnerKeepsCounters(s.tables, w, inp);
    if SomeMayRetry(s', j) {
      var g :| g in s'.workers && MayRetry(s'.workers[g], j);
      assert g == h;
    }
    if MayRetry(w, j) {
      assert SomeMayRetry(s, j);
    }
  }

  lemma DelayUnderClaim(s: State, h: nat, inp: Input)
    requires WorkersOK(s) && JobsOK(s.tables) && IndexOK(s.tables)
    requires h in s.workers && !Owns(s.workers[h]) && s.workers[h].job in s.tables.jobs
    ensures var j, s' := s.workers[h].job, MoveWorker(s, h, inp);
            && j in s'.tables.jobs && Slots(s', j) <= Slots(s, j)
  {
    var w, s' := s.workers[h], MoveWorker(s, h, inp);
    NonOwnerStep(s.tables, w, inp);
    if s'.tables == s.tables && !Owns(s'.workers[h]) {
      SlotsUnderOtherJob(s, s', h, w.job);
    } else {
      ClaimForm(s.tables, w.job, inp.attemptId);
      ClaimSpends(s, h, inp);
    }
  }

  // A claim turns one future slot into the claimer's own.
  lemma ClaimSpends(s: State, h: nat, inp: Input)
    requires WorkersOK(s) && JobsOK(s.tables) && h in s.workers && !Owns(s.workers[h])
    requires AllowedClaim(s.tables, s.workers[h].job, inp.attemptId)
    requires var j := s.workers[h].job;
             && MoveWorker(s, h, inp).tables == ClaimTx(s.tables, j, inp.attemptId).0
             && ClaimTx(s.tables, j, inp.attemptId).1.Ok?
    ensures var j, s' := s.workers[h].job, MoveWorker(s, h, inp);
            && j in s'.tables.jobs && Slots(s', j) <= Slots(s, j)
  {
    var w, s' := s.workers[h], MoveWorker(s, h, inp);
    var j := w.job;
    var row := s'.tables.jobs[j];
    assert row.attemptCount == s.tables.jobs[j].attemptCount + 1 && row.maxAttempts == s.tables.jobs[j].maxAttempts;
    if SomeMayRetry(s', j) {
      var g :| g in s'.workers && MayRetry(s'.workers[g], j);
      if g != h {
        assert OwnerOK(s.tables, s.workers[g]);
      }
      ClaimerCopy(s.tables, w, inp);
    }
  }

  lemma ClaimerCopy(t: Tables, w: Worker, inp: Input)
    requires !w.phase.Owning?
    ensures var (t', w') := WorkerStep(t, w, inp);
            w'.phase.Owning? ==> w.job in t'.jobs && w'.phase.row == t'.jobs[w.job]
  {
  }

  lemma DelayUnderOtherJob(s: State, h: nat, inp: Input, j: Uuid)
    requires h in s.workers && j in s.tables.jobs && s.workers[h].job != j
    requires OnlyTouches(s.tables, MoveWorker(s, h, inp).tables, s.workers[h].job)
    ensures var s' := MoveWorker(s, h, inp);
            && j in s'.tables.jobs && Slots(s', j) <= Slots(s, j)
  {
    WorkerKeepsJob(s.tables, s.workers[h], inp);
    SlotsUnderOtherJob(s, MoveWorker(s, h, inp), h, j);
  }

  lemma DelayUnderWorker(s: State, h: nat, inp: Input, j: Uuid)
    requires WorkersOK(s) && JobsOK(s.tables) && IndexOK(s.tables) && h in s.workers && j in s.tables.jobs
    requires OnlyTouches(s.tables, MoveWorker(s, h, inp).tables, s.workers[h].job)
    ensures Paid(s, MoveWorker(s, h, inp), s.workers[h].job == j && DecidesRetry(s.tables, s.workers[h], inp), j)
  {
    var w := s.workers[h];
    if w.job != j {
      DelayUnderOtherJob(s, h, inp, j);
    } else if Owns(w) {
      DelayUnderOwner(s, h, inp);
    } else {
      DelayUnderClaim(s, h, inp);
    }
  }

  lemma SlotsUnderOthers(s: State, s': State, j: Uuid)
    requires j in s.tables.jobs && j in s'.tables.jobs
    requires s'.tables.jobs[j].attemptCount == s.tables.jobs[j].attemptCount
    requires s'.tables.jobs[j].maxAttempts == s.tables.jobs[j].maxAttempts
    requires forall h :: h in s'.workers && Owns(s'.workers[h]) ==> h in s.workers && s'.workers[h] == s.workers[h]
    ensures Slots(s', j) <= Slots(s, j)
  {
    if SomeMayRetry(s', j) {
      var g :| g in s'.workers && MayRetry(s'.workers[g], j);
      assert g in s.workers && MayRetry(s.workers[g], j);
    }
  }

  predicate SameCounters(t: Tables, t': Tables, j: Uuid)
    requires j in t.jobs
  {
    && j in t'.jobs
    && t'.jobs[j].attemptCount == t.jobs[j].attemptCount
    && t'.jobs[j].maxAttempts == t.jobs[j].maxAttempts
  }

  // Requests never claim.
  lemma RequestsKeepCounters(s: State, e: Event, j: Uuid)
    requires j in s.tables.jobs && !e.WorkerMoves?
    ensures SameCounters(s.tables, Next(s, e).tables, j)
  {
    if !Moves(s, e) {
      UnmovedTables(s, e);
    } else if e.CreateMoves? {
      CreateKeepsCounters(s.tables, s.creators[e.r], e.inp, j);
    } else {
      CancelKeepsCounters(s.tables, s.cancellers[e.x], e.inp, j);
    }
  }

  lemma CancelKeepsCounters(t: Tables, c: Canceller, inp: Input, j: Uuid)
    requires j in t.jobs
    ensures SameCounters(t, CancelStep(t, c, inp).0, j)
  {
    CancelEffect(t, c, inp);
  }

  lemma CreateKeepsCounters(t: Tables, c: Creator, inp: Input, j: Uuid)
    requires j in t.jobs
    ensures SameCounters(t, CreateStep(t, c, inp).0, j)
  {
    CreateForm(t, c, inp);
    if c.phase.Inserting? {
      InsertForm(t, c.req.job, c.req.key, c.req.hash);
    }
  }

  lemma OwnersOnlyByMoves(s: State, e: Event)
    requires !e.WorkerMoves?
    ensures forall h :: h in Next(s, e).workers && Owns(Next(s, e).workers[h]) ==>
              h in s.workers && Next(s, e).workers[h] == s.workers[h]
  {
  }

  lemma DelayAside(s: State, e: Event, j: Uuid)
    requires j in s.tables.jobs && !e.WorkerMoves?
    ensures Paid(s, Next(s, e), false, j)
  {
    RequestsKeepCounters(s, e, j);
    OwnersOnlyByMoves(s, e);
    SlotsUnderOthers(s, Next(s, e), j);
  }

  lemma StepSpends(s: State, e: Event, j: Uuid)
    requires Inv(s) && j in s.tables.jobs
    ensures Paid(s, Next(s, e), SchedulesRetry(s, e, j), j)
  {
    if !e.WorkerMoves? {
      DelayAside(s, e, j);
    } else if e.h in s.workers {
      WorkerStepLegal(s.tables, s.workers[e.h], e.inp);
      DelayUnderWorker(s, e.h, e.inp, j);
    }
  }

  lemma {:induction false} RetriesBelowSlots(s: State, events: seq<Event>, j: Uuid)
    requires Inv(s) && j in s.tables.jobs
    ensures RetriesScheduled(s, events, j) <= Slots(s, j)
    decreases |events|
  {
    if events == [] {
      assert RowOK(s.tables.jobs[j]);
    } else {
      StepKeeps(s, events[0]);
      StepSpends(s, events[0], j);
      RetriesBelowSlots(Next(s, events[0]), events[1..], j);
    }
  }

  // A row just committed: nobody owns it, so all its retries are still ahead.
  lemma FreshRowSlots(s: State, j: Uuid)
    requires OwnersOK(s) && j in s.tables.jobs && RowOK(s.tables.jobs[j]) && s.tables.jobs[j].status == Pending
    ensures Slots(s, j) == s.tables.jobs[j].maxAttempts - 1
  {
    assert !SomeMayRetry(s, j);
  }

  lemma RetriesFromFresh(s: State, events: seq<Event>, j: Uuid)
    requires Inv(s) && j in s.tables.jobs && s.tables.jobs[j].status == Pending
    ensures j in Run(s, events).tables.jobs
    ensures RetriesScheduled(s, events, j) <= Run(s, events).tables.jobs[j].maxAttempts - 1
  {
    FreshRowSlots(s, j);
    RetriesBelowSlots(s, events, j);
    RunFollows(s, events);
  }

  lemma AbsentSchedulesNothing(s: State, e: Event, j: Uuid)
    requires OwnersOK(s) && j !in s.tables.jobs
    ensures !SchedulesRetry(s, e, j)
  {
  }

  lemma {:induction false} RetriesFromNothing(s: State, events: seq<Event>, j: Uuid)
    requires Inv(s) && j !in s.tables.jobs && j in Run(s, events).tables.jobs
    ensures RetriesScheduled(s, events, j) <= Run(s, events).tables.jobs[j].maxAttempts - 1
    decreases |events|
  {
    if events == [] {
    } else {
      StepKeeps(s, events[0]);
      AbsentSchedulesNothing(s, events[0], j);
      if j in Next(s, events[0]).tables.jobs {
        RetriesFromFresh(Next(s, events[0]), events[1..], j);
      } else {
        RetriesFromNothing(Next(s, events[0]), events[1..], j);
      }
    }
  }

  lemma {:induction false} DelayPerRetry(s: State, events: seq<Event>, j: Uuid)
    ensures TotalDelay(s, events, j) <= 60_000_000_000 * RetriesScheduled(s, events, j)
    decreases |events|
  {
    if events == [] {
    } else {
      DelayPerRetry(Next(s, events[0]), events[1..], j);
      if SchedulesRetry(s, events[0], j) {
        Backoff.DelayWindow(s.workers[events[0].h].phase.row.attemptCount, events[0].inp.draw);
      }
    }
  }

  /** Over any run a job is scheduled for at most max_attempts - 1 retries, and
      their delays add up to at most one minute each. */
  lemma TotalDelayBound(events: seq<Event>, j: Uuid)
    requires j in Reached(events).tables.jobs
    ensures var max := Reached(events).tables.jobs[j].maxAttempts;
            && RetriesScheduled(Initial(), events, j) <= max - 1
            && TotalDelay(Initial(), events, j) <= 60_000_000_000 * (max - 1)
  {
    InitialOK();
    RetriesFromNothing(Initial(), events, j);
    DelayPerRetry(Initial(), events, j);
  }
}
