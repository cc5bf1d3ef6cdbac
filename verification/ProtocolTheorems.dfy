/** The main results: what holds in every state every run can reach. */
module ProtocolTheorems {
  import opened GoTypes
  import opened Errors
  import opened Domain
  import opened RequestHash
  import opened ObjectKeys
  import opened Store
  import opened Protocol
  import opened ProtocolInvariant
  import opened ProtocolSteps
  import opened ProtocolPreservation

  // The state after some run of the whole system.
  function Reached(events: seq<Event>): State { Run(Initial(), events) }

  lemma ReachedOK(events: seq<Event>)
    ensures Inv(Reached(events))
  {
    InitialOK();
    RunKeeps(Initial(), events);
  }

  // --------------------------------------------------------------- what a run never undoes

  /** How tables may differ after any number of steps: nothing is deleted,
      identities are fixed, attempts only accumulate, COMPLETED and CANCELLED rows
      and finished attempts are frozen, and keys are never rebound. */
  ghost predicate Follows(t: Tables, t': Tables) {
    && (forall j :: j in t.jobs ==>
          && j in t'.jobs
          && t'.jobs[j].spec == t.jobs[j].spec
          && t'.jobs[j].maxAttempts == t.jobs[j].maxAttempts
          && t.jobs[j].attemptCount <= t'.jobs[j].attemptCount
          && (t.jobs[j].status == Completed || t.jobs[j].status == Cancelled ==> t'.jobs[j] == t.jobs[j]))
    && (forall a :: a in t.attempts ==>
          && a in t'.attempts
          && t'.attempts[a].job == t.attempts[a].job && t'.attempts[a].number == t.attempts[a].number
          && (t.attempts[a].status != Running ==> t'.attempts[a] == t.attempts[a]))
    && (forall p :: p in t.artifacts ==> p in t'.artifacts)
    && (forall k :: k in t.keys ==> k in t'.keys && t'.keys[k] == t.keys[k])
  }

  lemma StepFollows(t: Tables, t': Tables)
    requires Evolves(t, t')
    ensures Follows(t, t')
  {
  }

  lemma FollowsTransitive(t: Tables, u: Tables, v: Tables)
    requires Follows(t, u) && Follows(u, v)
    ensures Follows(t, v)
  {
  }

  lemma {:induction false} RunFollows(s: State, events: seq<Event>)
    requires Inv(s)
    ensures Inv(Run(s, events)) && Follows(s.tables, Run(s, events).tables)
    decreases |events|
  {
    if events == [] {
    } else {
      var s' := Next(s, events[0]);
      StepKeeps(s, events[0]);
      StepFollows(s.tables, s'.tables);
      RunFollows(s', events[1..]);
      FollowsTransitive(s.tables, s'.tables, Run(s', events[1..]).tables);
    }
  }

  // ---------------------------------------------------------------- exclusive ownership

  /** Between claim and release a handler is its job's only one, its private
      counters are the row's, and the row is at the status its next write
      expects, or was cancelled. */
  lemma ExclusiveOwnership(events: seq<Event>, h: nat)
    requires h in Reached(events).workers && Owns(Reached(events).workers[h])
    ensures var s := Reached(events);
            var w := s.workers[h];
            && w.job in s.tables.jobs
            && (forall g :: g in s.workers && Owns(s.workers[g]) && s.workers[g].job == w.job ==> g == h)
            && w.phase.row.attemptCount == s.tables.jobs[w.job].attemptCount
            && w.phase.row.maxAttempts == s.tables.jobs[w.job].maxAttempts
            && StatusFits(w.phase.point, s.tables.jobs[w.job].status)
  {
    ReachedOK(events);
    assert OwnerOK(Reached(events).tables, Reached(events).workers[h]);
  }

  // The reply the store gives an owner's next status write when the connection behaves.
  function CleanReply(t: Tables, w: Worker, now: int): Reply<JobRow>
    requires w.phase.Owning? && WritesStatus(w.phase.point)
  {
    UpdateJobStatus(t, w.job, Expected(w.phase.point), StatusUpdate(w.phase.point, now), Clean).1
  }

  lemma OwnerReply(t: Tables, w: Worker, now: int)
    requires w.phase.Owning? && OwnerOK(t, w) && WritesStatus(w.phase.point)
    ensures var r := CleanReply(t, w, now);
            && (r.Ok? <==> t.jobs[w.job].status == Expected(w.phase.point))
            && (r == Fail(Conflict) <==> t.jobs[w.job].status == Cancelled)
            && (r.Ok? || r == Fail(Conflict))
            && (w.phase.point.RetryToRetrying? ==> r.Ok?)
  {
  }

  /** For a handler that claimed its job a conflict means exactly that the job was
      cancelled, now and for ever; the FAILED -> RETRYING write never conflicts. */
  lemma ConflictMeansCancelled(events: seq<Event>, h: nat, now: int, later: seq<Event>)
    requires h in Reached(events).workers && Owns(Reached(events).workers[h])
    requires WritesStatus(Reached(events).workers[h].phase.point)
    ensures var s := Reached(events);
            var w := s.workers[h];
            var r := CleanReply(s.tables, w, now);
            && (r.Ok? || r == Fail(Conflict))
            && (r == Fail(Conflict) <==> w.job in s.tables.jobs && s.tables.jobs[w.job].status == Cancelled)
            && (w.phase.point.RetryToRetrying? ==> r.Ok?)
            && (r == Fail(Conflict) ==>
                  w.job in Run(s, later).tables.jobs && Run(s, later).tables.jobs[w.job].status == Cancelled)
  {
    ReachedOK(events);
    var s := Reached(events);
    OwnerReply(s.tables, s.workers[h], now);
    if CleanReply(s.tables, s.workers[h], now) == Fail(Conflict) {
      RunFollows(s, later);
    }
  }

  // -------------------------------------------------------------------------- retry cap

  lemma RetryCap(events: seq<Event>, j: Uuid)
    requires j in Reached(events).tables.jobs
    ensures var row := Reached(events).tables.jobs[j];
            && row.attemptCount <= row.maxAttempts
            && (row.status == Pending ==> row.attemptCount == 0)
            && (row.status == Queued || row.status == Retrying ==> row.attemptCount < row.maxAttempts)
            && (row.status == Retrying ==> row.nextRetryAt.Some?)
            && (row.nextRetryAt.Some? ==> row.status == Retrying || row.status == Cancelled)
  {
    ReachedOK(events);
  }

  // A failure tagged permanent is never on its way to a retry.
  lemma PermanentNeverRetried(events: seq<Event>, h: nat)
    requires h in Reached(events).workers && Owns(Reached(events).workers[h])
    requires var p := Reached(events).workers[h].phase.point; p.RetryToFailed? || p.RetryToRetrying?
    ensures !IsPermanent(Reached(events).workers[h].phase.point.err)
  {
    ReachedOK(events);
    assert OwnerOK(Reached(events).tables, Reached(events).workers[h]);
  }

  // ------------------------------------------------------------- the status cycle is finite

  /** Strictly smaller after every status change, although the table has the cycle
      QUEUED -> PROCESSING -> FAILED -> RETRYING -> QUEUED. */
  function Rank(row: JobRow): int {
    match row.status
    case Completed => 2
    case Cancelled => 2
    case Pending => 4 * (row.maxAttempts - row.attemptCount) + 1
    case Queued => 4 * (row.maxAttempts - row.attemptCount)
    case Processing => 4 * (row.maxAttempts - row.attemptCount) + 3
    case Failed => 4 * (row.maxAttempts - row.attemptCount) + 2
    case Retrying => 4 * (row.maxAttempts - row.attemptCount) + 1
  }

  lemma RankFalls(a: JobRow, b: JobRow)
    requires RowOK(a) && RowOK(b) && RowEvolves(a, b)
    ensures 2 <= Rank(b) && (if a.status == b.status then Rank(b) == Rank(a) else Rank(b) < Rank(a))
  {
  }

  predicate StatusMoved(s: State, s': State, j: Uuid) {
    j in s.tables.jobs && j in s'.tables.jobs && s.tables.jobs[j].status != s'.tables.jobs[j].status
  }

  // How often the status of `j` changes during a run.
  function StatusChanges(s: State, events: seq<Event>, j: Uuid): nat
    decreases |events|
  {
    if events == [] then 0
    else
      var s' := Next(s, events[0]);
      (if StatusMoved(s, s', j) then 1 else 0) + StatusChanges(s', events[1..], j)
  }

  lemma {:induction false} ChangesBelowRank(s: State, events: seq<Event>, j: Uuid)
    requires Inv(s) && j in s.tables.jobs
    ensures StatusChanges(s, events, j) + 2 <= Rank(s.tables.jobs[j])
    decreases |events|
  {
    if events == [] {
      RankFalls(s.tables.jobs[j], s.tables.jobs[j]);
    } else {
      var s' := Next(s, events[0]);
      StepKeeps(s, events[0]);
      RankFalls(s.tables.jobs[j], s'.tables.jobs[j]);
      ChangesBelowRank(s', events[1..], j);
    }
  }

  lemma {:induction false} ChangesFromNothing(s: State, events: seq<Event>, j: Uuid)
    requires Inv(s) && j !in s.tables.jobs && j in Run(s, events).tables.jobs
    ensures StatusChanges(s, events, j) <= 4 * Run(s, events).tables.jobs[j].maxAttempts - 1
    decreases |events|
  {
    if events == [] {
    } else {
      var s' := Next(s, events[0]);
      StepKeeps(s, events[0]);
      if j in s'.tables.jobs {
        ChangesBelowRank(s', events[1..], j);
        RunFollows(s', events[1..]);
      } else {
        ChangesFromNothing(s', events[1..], j);
      }
    }
  }

  /** However many messages, duplicates, crashes and faults a run contains, a job
      changes status at most 4 * max_attempts - 1 times. */
  lemma StatusChangeBound(events: seq<Event>, j: Uuid)
    requires j in Reached(events).tables.jobs
    ensures StatusChanges(Initial(), events, j) <= 4 * Reached(events).tables.jobs[j].maxAttempts - 1
  {
    InitialOK();
    ChangesFromNothing(Initial(), events, j);
  }

  // -------------------------------------------------------------- what steps and cancels keep

  lemma RowStep(t: Tables, t': Tables, j: Uuid)
    requires Evolves(t, t') && j in t.jobs
    ensures j in t'.jobs
    ensures var a, b := t.jobs[j], t'.jobs[j];
            && (b.status != a.status ==> CanTransition(a.status, b.status))
            && (b.status == a.status ==> b == a)
            && b.attemptCount == a.attemptCount + (if Claims(a, b) then 1 else 0)
  {
  }

  // Every status write of every step is an edge of the table; only a claim counts an attempt.
  lemma EveryWriteIsAnEdge(events: seq<Event>, e: Event, j: Uuid)
    requires j in Reached(events).tables.jobs
    ensures j in Next(Reached(events), e).tables.jobs
    ensures var a, b := Reached(events).tables.jobs[j], Next(Reached(events), e).tables.jobs[j];
            && (b.status != a.status ==> CanTransition(a.status, b.status))
            && (b.status == a.status ==> b == a)
            && b.attemptCount == a.attemptCount + (if Claims(a, b) then 1 else 0)
  {
    ReachedOK(events);
    StepKeeps(Reached(events), e);
    RowStep(Reached(events).tables, Next(Reached(events), e).tables, j);
  }

  /** Who changes a status, and from what to what: an API create enqueues, a cancel
      cancels what is not at an end, and everything else is a handler's. */
  predicate Writes(e: Event, from: JobStatus, to: JobStatus) {
    match e
    case CreateMoves(_, _) => from == Pending && to == Queued
    case CancelMoves(_, _) => from in {Pending, Queued, JobStatus.Processing, Retrying} && to == Cancelled
    case WorkerMoves(_, _) =>
      || (from == Queued && to == JobStatus.Processing)
      || (from == JobStatus.Processing && (to == Completed || to == Failed))
      || (from == Failed && to == Retrying)
      || (from == Retrying && to == Queued)
    case _ => false
  }

  // The table of transitions is no wider and no narrower than what somebody writes.
  lemma EveryEdgeHasItsAuthor(from: JobStatus, to: JobStatus, n: nat, inp: Input)
    ensures CanTransition(from, to) <==>
              || Writes(CreateMoves(n, inp), from, to)
              || Writes(CancelMoves(n, inp), from, to)
              || Writes(WorkerMoves(n, inp), from, to)
  {
  }

  predicate WritesOr(t: Tables, t': Tables, e: Event, j: Uuid)
    requires j in t.jobs
  {
    && j in t'.jobs
    && (t'.jobs[j].status == t.jobs[j].status || Writes(e, t.jobs[j].status, t'.jobs[j].status))
  }

  lemma HandlerWrites(t: Tables, w: Worker, e: Event, j: Uuid)
    requires j in t.jobs && e.WorkerMoves?
    ensures WritesOr(t, WorkerStep(t, w, e.inp).0, e, j)
  {
    if w.phase.Owning? {
      if WritesStatus(w.phase.point) {
        OwnerStatusStep(t, w, e.inp);
      }
    } else {
      NonOwnerStep(t, w, e.inp);
    }
  }

  lemma CreateWrites(t: Tables, c: Creator, e: Event, j: Uuid)
    requires j in t.jobs && e.CreateMoves?
    ensures WritesOr(t, CreateStep(t, c, e.inp).0, e, j)
  {
    CreateForm(t, c, e.inp);
    if c.phase.Inserting? {
      InsertForm(t, c.req.job, c.req.key, c.req.hash);
    }
  }

  lemma CancelWrites(t: Tables, c: Canceller, e: Event, j: Uuid)
    requires j in t.jobs && e.CancelMoves?
    ensures WritesOr(t, CancelStep(t, c, e.inp).0, e, j)
  {
    CancelEffect(t, c, e.inp);
  }

  // Every change of a status is one of these, in every state whatever.
  lemma EveryWriteHasItsAuthor(s: State, e: Event, j: Uuid)
    requires j in s.tables.jobs
    ensures var t' := Next(s, e).tables;
            && j in t'.jobs
            && (t'.jobs[j].status != s.tables.jobs[j].status ==> Writes(e, s.tables.jobs[j].status, t'.jobs[j].status))
  {
    if !Moves(s, e) {
      UnmovedTables(s, e);
    } else if e.WorkerMoves? {
      HandlerWrites(s.tables, s.workers[e.h], e, j);
    } else if e.CreateMoves? {
      CreateWrites(s.tables, s.creators[e.r], e, j);
    } else {
      CancelWrites(s.tables, s.cancellers[e.x], e, j);
    }
  }

  lemma UnmovedTables(s: State, e: Event)
    requires !Moves(s, e)
    ensures Next(s, e).tables == s.tables
  {
  }

  lemma CancelAnswerKept(s: State, e: Event, x: nat)
    requires x in s.cancellers && Succeeds(s.cancellers[x])
    ensures x in Next(s, e).cancellers && Next(s, e).cancellers[x] == s.cancellers[x]
  {
  }

  lemma {:induction false} CancelAnswerFixed(s: State, events: seq<Event>, x: nat)
    requires x in s.cancellers && Succeeds(s.cancellers[x])
    ensures x in Run(s, events).cancellers && Run(s, events).cancellers[x] == s.cancellers[x]
    decreases |events|
  {
    if events == [] {
    } else {
      CancelAnswerKept(s, events[0], x);
      CancelAnswerFixed(Next(s, events[0]), events[1..], x);
    }
  }

  /** A successful cancel is final: whatever happens later the job stays
      CANCELLED with the same attempt count, and no other cancel of it succeeds. */
  lemma CancelIsFinal(events: seq<Event>, x: nat, later: seq<Event>, y: nat)
    requires x in Reached(events).cancellers && Succeeds(Reached(events).cancellers[x])
    ensures var s := Reached(events);
            var s' := Run(s, later);
            var j := s.cancellers[x].job;
            && j in s.tables.jobs && j in s'.tables.jobs
            && s'.tables.jobs[j].status == Cancelled
            && s'.tables.jobs[j].attemptCount == s.tables.jobs[j].attemptCount
            && (y in s'.cancellers && Succeeds(s'.cancellers[y]) && s'.cancellers[y].job == j ==> y == x)
  {
    ReachedOK(events);
    RunFollows(Reached(events), later);
    CancelAnswerFixed(Reached(events), later, x);
  }

  // ------------------------------------------------------------------------ completion

  /** A COMPLETED job's last attempt SUCCEEDED, and its one artifact is its result key. */
  lemma CompletedMeansDone(events: seq<Event>, j: Uuid)
    requires j in Reached(events).tables.jobs && Reached(events).tables.jobs[j].status == Completed
    ensures var t := Reached(events).tables;
            && LastAttemptSucceeded(t, j)
            && (forall k :: (j, k) in t.artifacts <==> k == ResultKey(j))
  {
    ReachedOK(events);
  }

  /** A SUCCEEDED attempt is its job's last for ever, and the job is never again
      QUEUED, FAILED or RETRYING, whatever faults follow; its result is recorded. */
  lemma SuccessIsLast(events: seq<Event>, a: Uuid, later: seq<Event>)
    requires a in Reached(events).tables.attempts && Reached(events).tables.attempts[a].status == Succeeded
    ensures var row := Reached(events).tables.attempts[a];
            var t := Run(Reached(events), later).tables;
            && a in t.attempts && t.attempts[a] == row
            && row.job in t.jobs && t.jobs[row.job].attemptCount == row.number
            && t.jobs[row.job].status in {JobStatus.Processing, Completed, Cancelled}
            && (row.job, ResultKey(row.job)) in t.artifacts
  {
    ReachedOK(events);
    RunFollows(Reached(events), later);
  }

  // -------------------------------------------------------------------- attempt history

  // A row leaves RUNNING at most once: a finished attempt never changes again.
  lemma FinishedRowsFixed(events: seq<Event>, a: Uuid, later: seq<Event>)
    requires a in Reached(events).tables.attempts && Reached(events).tables.attempts[a].status != Running
    ensures var t := Run(Reached(events), later).tables;
            a in t.attempts && t.attempts[a] == Reached(events).tables.attempts[a]
  {
    ReachedOK(events);
    RunFollows(Reached(events), later);
  }

  predicate HasAttempt(t: Tables, j: Uuid, n: nat, a: Uuid) {
    a in t.attempts && t.attempts[a].job == j && t.attempts[a].number == n
  }

  lemma NumberTaken(t: Tables, j: Uuid, n: nat)
    requires IndexOK(t) && j in t.jobs
    ensures (exists a :: HasAttempt(t, j, n, a)) <==> 1 <= n <= t.jobs[j].attemptCount
  {
    if 1 <= n <= t.jobs[j].attemptCount {
      assert (j, n) in t.attemptIndex;
      assert HasAttempt(t, j, n, t.attemptIndex[(j, n)]);
    }
  }

  /** The attempts of a job carry the numbers 1..attempt_count, one row each, so
      the UNIQUE insert of the next claim cannot fail. */
  lemma AttemptsAreNumbered(events: seq<Event>, j: Uuid, n: nat, unused: Uuid)
    requires j in Reached(events).tables.jobs
    ensures var t := Reached(events).tables;
            && ((exists a :: HasAttempt(t, j, n, a)) <==> 1 <= n <= t.jobs[j].attemptCount)
            && (forall a, b :: HasAttempt(t, j, n, a) && HasAttempt(t, j, n, b) ==> a == b)
            && (t.jobs[j].status == Queued && unused !in t.attempts ==> ClaimTx(t, j, unused).1.Ok?)
  {
    ReachedOK(events);
    var t := Reached(events).tables;
    NumberTaken(t, j, n);
    if t.jobs[j].status == Queued && unused !in t.attempts {
      ClaimForm(t, j, unused);
    }
  }

  // ---------------------------------------------------------------- acknowledged means settled

  lemma SettledUnderWorker(s: State, h: nat, inp: Input, j: Uuid)
    requires Inv(s) && Settled(s, j) && h in s.workers
    ensures Settled(MoveWorker(s, h, inp), j)
  {
    WorkerStepLegal(s.tables, s.workers[h], inp);
    SettledStaysUnderWorker(s, h, inp, j);
  }

  lemma SettledUnderCreate(s: State, r: nat, inp: Input, j: Uuid)
    requires Settled(s, j) && r in s.creators
    requires OnlyTouches(s.tables, MoveCreate(s, r, inp).tables, CreateTarget(s.creators[r]))
    ensures Settled(MoveCreate(s, r, inp), j)
  {
    CreateTouchesFresh(s.tables, s.creators[r], inp);
  }

  lemma SettledUnderCancel(s: State, x: nat, inp: Input, j: Uuid)
    requires Settled(s, j) && x in s.cancellers
    ensures Settled(MoveCancel(s, x, inp), j)
  {
    CancelEffect(s.tables, s.cancellers[x], inp);
  }

  lemma SettledUnderMove(s: State, e: Event, j: Uuid)
    requires Inv(s) && Settled(s, j) && Moves(s, e)
    ensures Settled(Next(s, e), j)
  {
    if e.WorkerMoves? {
      SettledUnderWorker(s, e.h, e.inp, j);
    } else if e.CreateMoves? {
      CreateStepLegal(s.tables, s.creators[e.r], e.inp);
      SettledUnderCreate(s, e.r, e.inp, j);
    } else {
      SettledUnderCancel(s, e.x, e.inp, j);
    }
  }

  lemma SettledUnderOther(s: State, e: Event, j: Uuid)
    requires Settled(s, j) && !Moves(s, e)
    ensures Settled(Next(s, e), j)
  {
    if e.Deliver? || e.WorkerDies? {
      WorkerEventForm(s, e);
    }
  }

  lemma SettledSameStatus(t: Tables, t': Tables, j: Uuid)
    requires Evolves(t, t') && j in t.jobs
    requires t.jobs[j].status in {Completed, Cancelled, Failed} && t'.jobs[j].status in {Completed, Cancelled, Failed}
    ensures t'.jobs[j] == t.jobs[j]
  {
  }

  lemma {:induction false} SettledForever(s: State, events: seq<Event>, j: Uuid)
    requires Inv(s) && Settled(s, j)
    ensures Settled(Run(s, events), j) && Run(s, events).tables.jobs[j] == s.tables.jobs[j]
    decreases |events|
  {
    if events == [] {
    } else {
      var s' := Next(s, events[0]);
      StepKeeps(s, events[0]);
      if Moves(s, events[0]) {
        SettledUnderMove(s, events[0], j);
      } else {
        SettledUnderOther(s, events[0], j);
      }
      SettledSameStatus(s.tables, s'.tables, j);
      SettledForever(s', events[1..], j);
    }
  }

  /** If the finalising status writes of a handler that claimed its job met no
      fault and it answered Complete, the message may be acked: the job is
      COMPLETED, CANCELLED or FAILED without an owner, and stays so. */
  lemma CompleteIsSafe(events: seq<Event>, h: nat, later: seq<Event>)
    requires h in Reached(events).workers && CleanComplete(Reached(events).workers[h])
    ensures var s := Reached(events);
            var j := s.workers[h].job;
            && Settled(s, j) && Settled(Run(s, later), j)
            && Run(s, later).tables.jobs[j] == s.tables.jobs[j]
  {
    ReachedOK(events);
    SettledForever(Reached(events), later, Reached(events).workers[h].job);
  }

  // ----------------------------------------------------------------- idempotent creation

  // The key table never rebinds a key.
  lemma KeysFixed(events: seq<Event>, k: GoString, later: seq<Event>)
    requires k in Reached(events).tables.keys
    ensures var t := Run(Reached(events), later).tables;
            k in t.keys && t.keys[k] == Reached(events).tables.keys[k]
  {
    ReachedOK(events);
    RunFollows(Reached(events), later);
  }

  // At most one job row is ever committed under a non-empty key.
  lemma OneRowPerKey(events: seq<Event>, i: Uuid, j: Uuid)
    requires i in Reached(events).origin && j in Reached(events).origin
    requires Reached(events).origin[i].key == Reached(events).origin[j].key != []
    ensures i == j
  {
    ReachedOK(events);
  }

  // At most one of the requests with one non-empty key learns created=true.
  lemma OneCreatorPerKey(events: seq<Event>, q: nat, r: nat)
    requires q in Reached(events).creators && r in Reached(events).creators
    requires var s := Reached(events);
             Created(s.creators[q]) && Created(s.creators[r]) && s.creators[q].req.key == s.creators[r].req.key != []
    ensures q == r
  {
    ReachedOK(events);
  }

  /** A request is accepted only with the job whose object key, pipeline and
      version are its own; under a key, that is the job the key is bound to. */
  lemma AcceptedMatches(events: seq<Event>, r: nat)
    requires r in Reached(events).creators
    requires var c := Reached(events).creators[r]; c.phase.Answered? && c.phase.reply.Accepted?
    ensures var s := Reached(events);
            var Creator(req, phase) := s.creators[r];
            var Accepted(id, row, _) := phase.reply;
            && id in s.tables.jobs
            && s.tables.jobs[id].spec == req.job.spec == row.spec
            && (req.key != [] ==> req.key in s.tables.keys && s.tables.keys[req.key].job == id)
            && (req.key == [] ==> id == req.job.id)
  {
    ReachedOK(events);
    var s := Reached(events);
    var c := s.creators[r];
    assert CreatorOK(s.tables, c);
    var id := c.phase.reply.id;
    if c.req.key != [] {
      assert s.origin[id] == Origin(c.req.key, c.req.hash);
      HashInjective(s.tables.jobs[id].spec, c.req.job.spec);
    }
  }

  // All accepted replies under one key name one job, at whatever points of the run they were given.
  lemma RepliesAgree(events: seq<Event>, q: nat, r: nat)
    requires q in Reached(events).creators && r in Reached(events).creators
    requires var s := Reached(events);
             && s.creators[q].phase.Answered? && s.creators[q].phase.reply.Accepted?
             && s.creators[r].phase.Answered? && s.creators[r].phase.reply.Accepted?
             && s.creators[q].req.key == s.creators[r].req.key != []
    ensures var s := Reached(events);
            && s.creators[q].phase.reply.id == s.creators[r].phase.reply.id
            && s.creators[q].req.job.spec == s.creators[r].req.job.spec
  {
    AcceptedMatches(events, q);
    AcceptedMatches(events, r);
  }

  /** What a look at the key table means to the request that makes it: the bound
      job asks for exactly the same object, pipeline and version, or for something
      else; in no run does one key stand for two different requests. */
  lemma LookupMeans(events: seq<Event>, key: GoString, spec: JobSpec)
    requires key in Reached(events).tables.keys
    ensures var t := Reached(events).tables;
            var r := ResolveKey(t, key, HashOf(spec), Clean);
            var j := t.keys[key].job;
            && j in t.jobs
            && (r == Ok(j) <==> t.jobs[j].spec == spec)
            && (r == Fail(IdempotencyConflict) <==> t.jobs[j].spec != spec)
  {
    ReachedOK(events);
    var s := Reached(events);
    var j := s.tables.keys[key].job;
    assert s.origin[j] == Origin(key, s.tables.keys[key].hash);
    if HashOf(s.tables.jobs[j].spec) == HashOf(spec) {
      HashInjective(s.tables.jobs[j].spec, spec);
    }
  }

  // The request's key is already bound under another fingerprint.
  predicate KeyReused(s: State, r: nat) {
    && r in s.creators
    && var req := s.creators[r].req;
       req.key in s.tables.keys && s.tables.keys[req.key].hash != req.hash
  }

  // Such a request has not got further than finding that out.
  predicate Refusing(p: CreatePhase) {
    p in {Inserting, ResolvingKey, Abandoned} || (p.Answered? && p.reply.Rejected?)
  }

  lemma ReusedIsRefused(s: State, r: nat)
    requires CreatorsOK(s) && KeysOK(s.tables) && KeyReused(s, r)
    ensures s.creators[r].req.key != [] && Refusing(s.creators[r].phase)
  {
    assert CreatorOK(s.tables, s.creators[r]);
  }

  lemma MismatchStep(t: Tables, c: Creator, inp: Input)
    requires c.req.key != [] && c.req.key in t.keys && t.keys[c.req.key].hash != c.req.hash && Refusing(c.phase)
    ensures var (t', sent, c') := CreateStep(t, c, inp);
            && t' == t && sent == [] && c'.req == c.req && Refusing(c'.phase) && !c'.phase.Inserting?
            && (c.phase.ResolvingKey? && inp.fault.Clean? ==> c'.phase == Answered(Rejected(IdempotencyConflict)))
            && (c'.phase.Answered? && c' != c && inp.fault.Clean? && c.req.job.id !in t.jobs ==>
                  c.req.job.maxAttempts >= 1 ==> c'.phase.reply.error == IdempotencyConflict)
  {
  }

  lemma ReusedStays(s: State, e: Event, r: nat)
    requires KeyReused(s, r) && Evolves(s.tables, Next(s, e).tables)
    ensures KeyReused(Next(s, e), r)
  {
    if e.CreateMoves? && e.r == r {
      CreatedStep(s.tables, s.creators[r], e.inp);
    }
  }

  lemma MismatchOwnMove(s: State, r: nat, inp: Input)
    requires Inv(s) && KeyReused(s, r)
    ensures Refusing(s.creators[r].phase)
    ensures MoveCreate(s, r, inp).tables == s.tables && MoveCreate(s, r, inp).published == s.published
  {
    ReusedIsRefused(s, r);
    MismatchStep(s.tables, s.creators[r], inp);
    assert s.published + [] == s.published;
  }

  /** A key reused with a different body: however far the request got, in every
      continuation it is only ever rejected, and none of its own steps changes a
      row or publishes. */
  lemma {:induction false} MismatchChangesNothing(s: State, events: seq<Event>, r: nat, inp: Input)
    requires Inv(s) && KeyReused(s, r)
    ensures var s' := Run(s, events);
            && KeyReused(s', r) && Refusing(s'.creators[r].phase)
            && MoveCreate(s', r, inp).tables == s'.tables
            && MoveCreate(s', r, inp).published == s'.published
    decreases |events|
  {
    if events == [] {
      MismatchOwnMove(s, r, inp);
    } else {
      StepKeeps(s, events[0]);
      ReusedStays(s, events[0], r);
      MismatchChangesNothing(Next(s, events[0]), events[1..], r, inp);
    }
  }

  // --------------------------------------------------------------------------- publishing

  // Across all creates and self-healing replays the API publishes a job at most once.
  lemma ApiPublishesOnce(events: seq<Event>, i: nat, k: nat)
    requires i < |Reached(events).published| && k < |Reached(events).published|
    requires var p := Reached(events).published; p[i].byApi && p[k].byApi && p[i].job == p[k].job
    ensures i == k
  {
    ReachedOK(events);
  }
}
