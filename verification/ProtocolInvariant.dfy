/** The inductive invariant of the protocol. */
module ProtocolInvariant {
  import opened GoTypes
  import opened Errors
  import opened Domain
  import opened RequestHash
  import opened ObjectKeys
  import opened Store
  import opened Protocol

  // ------------------------------------------------------------ table invariants

  predicate RowOK(row: JobRow) {
    && 1 <= row.maxAttempts
    && row.attemptCount <= row.maxAttempts
    && (row.status == Pending ==> row.attemptCount == 0)
    && (row.status == Queued || row.status == Retrying ==> row.attemptCount < row.maxAttempts)
    && (row.status in {JobStatus.Processing, Completed, Failed, Retrying} ==> 1 <= row.attemptCount)
    && (row.status == Failed || row.status == Retrying ==> row.lastError.Some?)
    && (row.status == Retrying ==> row.nextRetryAt.Some?)
    && (row.nextRetryAt.Some? ==> row.status == Retrying || row.status == Cancelled)
  }

  ghost predicate JobsOK(t: Tables) { forall j :: j in t.jobs ==> RowOK(t.jobs[j]) }

  // Every attempt row is in the UNIQUE (job_id, number) index and numbered within its job's counter.
  ghost predicate RowsIndexed(t: Tables) {
    forall a :: a in t.attempts ==>
      var r := t.attempts[a];
      && r.job in t.jobs
      && 1 <= r.number <= t.jobs[r.job].attemptCount
      && (r.job, r.number) in t.attemptIndex
      && t.attemptIndex[(r.job, r.number)] == a
  }

  ghost predicate IndexPoints(t: Tables) {
    forall p :: p in t.attemptIndex ==>
      var a := t.attemptIndex[p];
      && a in t.attempts
      && t.attempts[a].job == p.0
      && t.attempts[a].number == p.1
  }

  ghost predicate NumbersDense(t: Tables) {
    forall j, n: nat :: j in t.jobs && 1 <= n <= t.jobs[j].attemptCount ==> (j, n) in t.attemptIndex
  }

  // A job's attempts are numbered exactly 1..attempt_count, each number once.
  ghost predicate IndexOK(t: Tables) { RowsIndexed(t) && IndexPoints(t) && NumbersDense(t) }

  // A SUCCEEDED attempt is its job's last, its result is recorded, and the job did not move on from it.
  ghost predicate SucceededOK(t: Tables) {
    forall a :: a in t.attempts && t.attempts[a].status == Succeeded ==>
      var j := t.attempts[a].job;
      && j in t.jobs
      && t.attempts[a].number == t.jobs[j].attemptCount
      && t.jobs[j].status in {JobStatus.Processing, Completed, Cancelled}
      && (j, ResultKey(j)) in t.artifacts
  }

  predicate LastAttemptSucceeded(t: Tables, j: Uuid)
    requires j in t.jobs
  {
    && (j, t.jobs[j].attemptCount) in t.attemptIndex
    && var a := t.attemptIndex[(j, t.jobs[j].attemptCount)];
       a in t.attempts && t.attempts[a].status == Succeeded
  }

  ghost predicate CompletedOK(t: Tables) {
    forall j :: j in t.jobs && t.jobs[j].status == Completed ==>
      LastAttemptSucceeded(t, j) && (j, ResultKey(j)) in t.artifacts
  }

  ghost predicate ArtifactsOK(t: Tables) {
    forall p :: p in t.artifacts ==> p.0 in t.jobs && p.1 == ResultKey(p.0)
  }

  ghost predicate KeysOK(t: Tables) {
    forall k :: k in t.keys ==> k != [] && t.keys[k].job in t.jobs
  }

  ghost predicate TablesOK(t: Tables) {
    JobsOK(t) && IndexOK(t) && SucceededOK(t) && CompletedOK(t) && ArtifactsOK(t) && KeysOK(t)
  }

  // --------------------------------------------------------- ownership invariants

  // The status an owner's next guarded write expects.
  function Expected(p: Point): JobStatus {
    match p
    case RetryToRetrying(_, _) => Failed
    case RetryToQueued(_) => Retrying
    case _ => JobStatus.Processing
  }

  predicate StatusFits(p: Point, status: JobStatus) {
    status == Expected(p) || (status == Cancelled && !p.RetryToRetrying?)
  }

  predicate AttemptFits(p: Point, status: AttemptStatus) {
    match p
    case RunPipeline => status == Running
    case FinishSucceeded => status == Running
    case FinishFailed(_) => status == Running
    case MarkCompleted => status == Succeeded
    case _ => status != Succeeded
  }

  // What the recheck decided: to retry only a retryable error with attempts left, else to fail for good.
  predicate DecisionFits(p: Point, row: JobRow) {
    && (p.RetryToFailed? || p.RetryToRetrying? || p.RetryToQueued? ==> row.attemptCount < row.maxAttempts)
    && (p.RetryToFailed? || p.RetryToRetrying? ==> !IsPermanent(p.err))
    && (p.MarkFailed? ==> IsPermanent(p.err) || row.attemptCount >= row.maxAttempts)
  }

  /** What a handler between claim and release may rely on: its private copy of
      the counters is current, the row is where its next write expects it or
      cancelled, and its attempt is the job's last. */
  ghost predicate OwnerOK(t: Tables, w: Worker)
    requires w.phase.Owning?
  {
    var Owning(row, attempt, point) := w.phase;
    && w.job in t.jobs
    && var cur := t.jobs[w.job];
    && row.attemptCount == cur.attemptCount
    && row.maxAttempts == cur.maxAttempts
    && StatusFits(point, cur.status)
    && (w.job, cur.attemptCount) in t.attemptIndex
    && t.attemptIndex[(w.job, cur.attemptCount)] == attempt
    && attempt in t.attempts
    && t.attempts[attempt].job == w.job
    && AttemptFits(point, t.attempts[attempt].status)
    && DecisionFits(point, row)
    && (point.RetryToRetrying? ==> cur.lastError == Some(point.err))
    && (point.FinishSucceeded? || point.MarkCompleted? ==> (w.job, ResultKey(w.job)) in t.artifacts)
  }

  ghost predicate OwnersOK(s: State) {
    forall h :: h in s.workers && s.workers[h].phase.Owning? ==> OwnerOK(s.tables, s.workers[h])
  }

  ghost predicate Exclusive(s: State) {
    forall h, g | h in s.workers && g in s.workers && Owns(s.workers[h]) && Owns(s.workers[g]) ::
      s.workers[h].job == s.workers[g].job ==> h == g
  }

  ghost predicate Unowned(s: State, j: Uuid) {
    forall h :: h in s.workers && Owns(s.workers[h]) ==> s.workers[h].job != j
  }

  // The job has reached a status no later step can change.
  ghost predicate Settled(s: State, j: Uuid) {
    && j in s.tables.jobs
    && var status := s.tables.jobs[j].status;
       status == Completed || status == Cancelled || (status == Failed && Unowned(s, j))
  }

  predicate CleanComplete(w: Worker) { w.phase == Done(Complete, true) && w.clean }

  ghost predicate AckedOK(s: State) {
    forall h :: h in s.workers && CleanComplete(s.workers[h]) ==> Settled(s, s.workers[h].job)
  }

  // ------------------------------------------------------------ request invariants

  // The request's key is bound to job `id` under its own fingerprint; without a key, it is the request's own job.
  predicate Bound(t: Tables, req: Request, id: Uuid) {
    && id in t.jobs
    && (if req.key == [] then id == req.job.id && t.jobs[id].spec == req.job.spec
        else req.key in t.keys && t.keys[req.key] == KeyRow(id, req.hash))
  }

  // created=true is said exactly of the request's own job.
  predicate Own(c: Creator, id: Uuid, created: bool) { created <==> id == c.req.job.id }

  ghost predicate CreatorOK(t: Tables, c: Creator) {
    match c.phase
    case Inserting => true
    case ResolvingKey => c.req.key in t.keys && t.keys[c.req.key].job != c.req.job.id
    case ReadingJob(id) => c.req.key != [] && Bound(t, c.req, id) && id != c.req.job.id
    case Enqueuing(id, row, created) => Bound(t, c.req, id) && row.spec == t.jobs[id].spec && Own(c, id, created)
    case Publishing(id, row, created) =>
      && Bound(t, c.req, id) && row.spec == t.jobs[id].spec && Own(c, id, created)
      && t.jobs[id].status != Pending && row.status != Pending
    case Reloading(id, created) => Bound(t, c.req, id) && Own(c, id, created) && t.jobs[id].status != Pending
    case Answered(Accepted(id, row, created)) =>
      && Bound(t, c.req, id) && row.spec == t.jobs[id].spec && Own(c, id, created)
      && t.jobs[id].status != Pending && row.status != Pending
    case Answered(EnqueueFailed(id, created)) => Bound(t, c.req, id) && Own(c, id, created)
    case Answered(Rejected(e)) =>
      e == IdempotencyConflict ==> c.req.key in t.keys && t.keys[c.req.key].hash != c.req.hash
    case Abandoned => true
  }

  ghost predicate CreatorsOK(s: State) {
    forall r :: r in s.creators ==> CreatorOK(s.tables, s.creators[r])
  }

  // The request learned that its own insert committed.
  predicate Created(c: Creator) {
    match c.phase
    case Enqueuing(_, _, created) => created
    case Publishing(_, _, created) => created
    case Reloading(_, created) => created
    case Answered(Accepted(_, _, created)) => created
    case Answered(EnqueueFailed(_, created)) => created
    case _ => false
  }

  // created=true goes to one request per job row, the one whose insert committed it.
  ghost predicate CreatedOK(s: State) {
    && (forall r :: r in s.creators && Created(s.creators[r]) ==>
          var req := s.creators[r].req;
          && req.job.id in s.tables.jobs
          && (req.key != [] ==> req.key in s.tables.keys && s.tables.keys[req.key].job == req.job.id))
    && (forall q, r | q in s.creators && r in s.creators && Created(s.creators[q]) && Created(s.creators[r]) ::
          s.creators[q].req.job.id == s.creators[r].req.job.id ==> q == r)
  }

  // The key table and the committed rows agree in both directions.
  ghost predicate OriginOK(s: State) {
    && s.origin.Keys == s.tables.jobs.Keys
    && (forall j :: j in s.origin && s.origin[j].key != [] ==>
          s.origin[j].key in s.tables.keys && s.tables.keys[s.origin[j].key].job == j)
    && (forall k :: k in s.tables.keys && s.tables.keys[k].job in s.origin ==>
          s.origin[s.tables.keys[k].job] == Origin(k, s.tables.keys[k].hash))
  }

  // Fingerprints are the fingerprints of what the rows and requests say.
  ghost predicate HashesOK(s: State) {
    && (forall j :: j in s.origin && j in s.tables.jobs ==> s.origin[j].hash == HashOf(s.tables.jobs[j].spec))
    && (forall r :: r in s.creators ==> s.creators[r].req.hash == HashOf(s.creators[r].req.job.spec))
  }

  ghost predicate CancellersOK(s: State) {
    && (forall x :: x in s.cancellers && Succeeds(s.cancellers[x]) ==>
          && s.cancellers[x].job in s.tables.jobs
          && s.tables.jobs[s.cancellers[x].job].status == Cancelled)
    && (forall x, y | x in s.cancellers && y in s.cancellers
                      && Succeeds(s.cancellers[x]) && Succeeds(s.cancellers[y]) ::
          s.cancellers[x].job == s.cancellers[y].job ==> x == y)
  }

  predicate Succeeds(c: Canceller) { c.phase.CancelDone? && c.phase.reply.CancelOk? }

  // ---------------------------------------------------------- message invariants

  predicate ToPublish(c: Creator) { c.phase.Publishing? }

  // At most one API publish per job, done or about to be done, and none while it is PENDING.
  ghost predicate PublishedOK(s: State) {
    && (forall i :: 0 <= i < |s.published| && s.published[i].byApi ==>
          s.published[i].job in s.tables.jobs && s.tables.jobs[s.published[i].job].status != Pending)
    && (forall i, k :: 0 <= i < k < |s.published| && s.published[i].byApi && s.published[k].byApi ==>
          s.published[i].job != s.published[k].job)
    && (forall i, r :: 0 <= i < |s.published| && s.published[i].byApi && r in s.creators && ToPublish(s.creators[r]) ==>
          s.published[i].job != s.creators[r].phase.id)
    && (forall q, r | q in s.creators && r in s.creators && ToPublish(s.creators[q]) && ToPublish(s.creators[r]) ::
          s.creators[q].phase.id == s.creators[r].phase.id ==> q == r)
  }

  ghost predicate WorkersOK(s: State) { OwnersOK(s) && Exclusive(s) && AckedOK(s) }

  ghost predicate RequestsOK(s: State) {
    CreatorsOK(s) && CreatedOK(s) && OriginOK(s) && CancellersOK(s) && PublishedOK(s) && HashesOK(s)
  }

  ghost predicate Inv(s: State) { TablesOK(s.tables) && WorkersOK(s) && RequestsOK(s) }
}
