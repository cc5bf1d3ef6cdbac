/** Every step of every actor keeps the invariant. */
module ProtocolSteps {
  import opened GoTypes
  import opened Errors
  import opened Domain
  import opened RequestHash
  import opened ObjectKeys
  import opened Store
  import opened Protocol
  import opened ProtocolInvariant

  // ------------------------------------------------ how tables may change in one step

  predicate Claims(a: JobRow, b: JobRow) { a.status == Queued && b.status == JobStatus.Processing }

  /** A row keeps its identity fields; its status stays or follows an edge of the
      table, and only a claim moves the attempt counter, by one. */
  predicate RowEvolves(a: JobRow, b: JobRow) {
    && b.spec == a.spec && b.correlation == a.correlation && b.maxAttempts == a.maxAttempts
    && (b == a || CanTransition(a.status, b.status))
    && b.attemptCount == a.attemptCount + (if Claims(a, b) then 1 else 0)
  }

  predicate AttemptEvolves(a: AttemptRow, b: AttemptRow) {
    b.job == a.job && b.number == a.number && (b.status == a.status || a.status == Running)
  }

  ghost predicate Evolves(t: Tables, t': Tables) {
    && (forall j :: j in t.jobs ==> j in t'.jobs && RowEvolves(t.jobs[j], t'.jobs[j]))
    && (forall j :: j in t'.jobs && j !in t.jobs ==> t'.jobs[j].status == Pending && t'.jobs[j].attemptCount == 0)
    && (forall a :: a in t.attempts ==> a in t'.attempts && AttemptEvolves(t.attempts[a], t'.attempts[a]))
    && (forall p :: p in t.artifacts ==> p in t'.artifacts)
    && (forall k :: k in t.keys ==> k in t'.keys && t'.keys[k] == t.keys[k])
  }

  // Nothing that belongs to a job other than `j` changed.
  ghost predicate OnlyTouches(t: Tables, t': Tables, j: Uuid) {
    && (forall k :: k in t.jobs && k != j ==> k in t'.jobs && t'.jobs[k] == t.jobs[k])
    && (forall a :: a in t.attempts && t.attempts[a].job != j ==> a in t'.attempts && t'.attempts[a] == t.attempts[a])
    && (forall p :: p in t.attemptIndex && p.0 != j ==> p in t'.attemptIndex && t'.attemptIndex[p] == t.attemptIndex[p])
    && (forall p :: p in t.artifacts && p.0 != j ==> p in t'.artifacts && t'.artifacts[p] == t.artifacts[p])
  }

  lemma OtherOwnerUntouched(t: Tables, t': Tables, j: Uuid, w: Worker)
    requires w.phase.Owning? && w.job != j
    requires OwnerOK(t, w) && OnlyTouches(t, t', j)
    ensures OwnerOK(t', w)
  {
  }

  // --------------------------------------------------------------- writes to a job row

  function SetRow(t: Tables, j: Uuid, row: JobRow): Tables { t.(jobs := t.jobs[j := row]) }

  // A status write, other than a claim, that the table invariants allow.
  ghost predicate AllowedWrite(t: Tables, j: Uuid, row: JobRow) {
    && j in t.jobs
    && RowOK(row)
    && RowEvolves(t.jobs[j], row)
    && row.attemptCount == t.jobs[j].attemptCount
    && (row.status == Completed ==> LastAttemptSucceeded(t, j) && (j, ResultKey(j)) in t.artifacts)
    && (row.status in {JobStatus.Processing, Completed, Cancelled} || !LastAttemptSucceeded(t, j))
  }

  lemma SetRowIndex(t: Tables, j: Uuid, row: JobRow)
    requires IndexOK(t) && j in t.jobs && row.attemptCount == t.jobs[j].attemptCount
    ensures IndexOK(SetRow(t, j, row))
  {
  }

  lemma SetRowSucceeded(t: Tables, j: Uuid, row: JobRow)
    requires IndexOK(t) && SucceededOK(t) && AllowedWrite(t, j, row)
    ensures SucceededOK(SetRow(t, j, row))
  {
  }

  lemma SetRowCompleted(t: Tables, j: Uuid, row: JobRow)
    requires CompletedOK(t) && AllowedWrite(t, j, row)
    ensures CompletedOK(SetRow(t, j, row))
  {
  }

  lemma SetRowRest(t: Tables, j: Uuid, row: JobRow)
    requires JobsOK(t) && ArtifactsOK(t) && KeysOK(t) && AllowedWrite(t, j, row)
    ensures var t' := SetRow(t, j, row);
            JobsOK(t') && ArtifactsOK(t') && KeysOK(t')
  {
  }

  lemma SetRowFrame(t: Tables, j: Uuid, row: JobRow)
    requires AllowedWrite(t, j, row)
    ensures var t' := SetRow(t, j, row);
            OnlyTouches(t, t', j) && Evolves(t, t')
  {
  }

  // One step's effect on the tables: the invariants hold after it and only `j` was affected.
  ghost predicate Legal(t: Tables, t': Tables, j: Uuid) {
    TablesOK(t') && OnlyTouches(t, t', j) && Evolves(t, t')
  }

  lemma NothingIsLegal(t: Tables, j: Uuid)
    requires TablesOK(t)
    ensures Legal(t, t, j)
  {
  }

  lemma SetRowLegal(t: Tables, j: Uuid, row: JobRow)
    requires TablesOK(t) && AllowedWrite(t, j, row)
    ensures Legal(t, SetRow(t, j, row), j)
  {
    SetRowIndex(t, j, row);
    SetRowSucceeded(t, j, row);
    SetRowCompleted(t, j, row);
    SetRowRest(t, j, row);
    SetRowFrame(t, j, row);
  }
  // --------------------------------------------------------- writes to attempts, artifacts

  function SetAttempt(t: Tables, a: Uuid, status: AttemptStatus): Tables
    requires a in t.attempts
  {
    t.(attempts := t.attempts[a := t.attempts[a].(status := status)])
  }

  // Leaving RUNNING; SUCCEEDED only for the last attempt of a job still at work or cancelled.
  ghost predicate AllowedFinish(t: Tables, a: Uuid, status: AttemptStatus) {
    && a in t.attempts
    && t.attempts[a].status == Running
    && var j := t.attempts[a].job;
    && j in t.jobs
    && t.attempts[a].number == t.jobs[j].attemptCount
    && t.jobs[j].status in {JobStatus.Processing, Cancelled}
    && (status == Succeeded ==> (j, ResultKey(j)) in t.artifacts)
  }

  lemma SetAttemptIndex(t: Tables, a: Uuid, status: AttemptStatus)
    requires IndexOK(t) && a in t.attempts
    ensures IndexOK(SetAttempt(t, a, status))
  {
  }

  lemma SetAttemptOutcome(t: Tables, a: Uuid, status: AttemptStatus)
    requires IndexOK(t) && SucceededOK(t) && CompletedOK(t) && AllowedFinish(t, a, status)
    ensures SucceededOK(SetAttempt(t, a, status)) && CompletedOK(SetAttempt(t, a, status))
  {
  }

  lemma SetAttemptFrame(t: Tables, a: Uuid, status: AttemptStatus)
    requires AllowedFinish(t, a, status)
    ensures var t' := SetAttempt(t, a, status);
            OnlyTouches(t, t', t.attempts[a].job) && Evolves(t, t')
  {
  }

  lemma SetAttemptLegal(t: Tables, a: Uuid, status: AttemptStatus)
    requires TablesOK(t) && AllowedFinish(t, a, status)
    ensures Legal(t, SetAttempt(t, a, status), t.attempts[a].job)
  {
    SetAttemptIndex(t, a, status);
    SetAttemptOutcome(t, a, status);
    SetAttemptFrame(t, a, status);
  }

  function SetArtifact(t: Tables, j: Uuid, row: ArtifactRow): Tables {
    t.(artifacts := t.artifacts[(j, ResultKey(j)) := row])
  }

  lemma SetArtifactKept(t: Tables, j: Uuid, row: ArtifactRow)
    requires SucceededOK(t) && CompletedOK(t) && ArtifactsOK(t) && j in t.jobs
    ensures var t' := SetArtifact(t, j, row);
            SucceededOK(t') && CompletedOK(t') && ArtifactsOK(t')
  {
  }

  lemma SetArtifactFrame(t: Tables, j: Uuid, row: ArtifactRow)
    ensures OnlyTouches(t, SetArtifact(t, j, row), j) && Evolves(t, SetArtifact(t, j, row))
  {
  }

  lemma ArtifactLegal(t: Tables, j: Uuid, row: ArtifactRow)
    requires TablesOK(t) && j in t.jobs
    ensures Legal(t, SetArtifact(t, j, row), j)
  {
    SetArtifactKept(t, j, row);
    SetArtifactFrame(t, j, row);
    assert IndexOK(SetArtifact(t, j, row));
  }

  // ------------------------------------------------------------------ owner steps

  lemma OwnerWriteLegal(t: Tables, w: Worker, upd: JobUpdate, fault: Fault)
    requires TablesOK(t) && w.phase.Owning? && OwnerOK(t, w)
    requires var from := Expected(w.phase.point);
             && CanTransition(from, upd.to) && !upd.incAttempt
             && (t.jobs[w.job].status == from ==> RowOK(ApplyUpdate(t.jobs[w.job], upd)))
             && (upd.to == Completed <==> w.phase.point.MarkCompleted?)
             && upd.to != JobStatus.Processing
    ensures Legal(t, UpdateJobStatus(t, w.job, Expected(w.phase.point), upd, fault).0, w.job)
  {
    var t' := UpdateJobStatus(t, w.job, Expected(w.phase.point), upd, fault).0;
    if t' == t {
      NothingIsLegal(t, w.job);
    } else {
      OwnerWriteAllowed(t, w, upd);
      SetRowLegal(t, w.job, ApplyUpdate(t.jobs[w.job], upd));
    }
  }

  lemma OwnerWriteAllowed(t: Tables, w: Worker, upd: JobUpdate)
    requires w.phase.Owning? && OwnerOK(t, w)
    requires var from := Expected(w.phase.point);
             && CanTransition(from, upd.to) && !upd.incAttempt
             && t.jobs[w.job].status == from
             && RowOK(ApplyUpdate(t.jobs[w.job], upd))
             && (upd.to == Completed <==> w.phase.point.MarkCompleted?)
             && upd.to != JobStatus.Processing
    ensures AllowedWrite(t, w.job, ApplyUpdate(t.jobs[w.job], upd))
  {
  }

  lemma OwnerFinishLegal(t: Tables, w: Worker, status: AttemptStatus, fault: Fault)
    requires TablesOK(t) && w.phase.Owning? && OwnerOK(t, w)
    requires w.phase.point.FinishSucceeded? || (w.phase.point.FinishFailed? && status != Succeeded)
    ensures Legal(t, FinishAttempt(t, w.phase.attempt, status, fault).0, w.job)
  {
    var t' := FinishAttempt(t, w.phase.attempt, status, fault).0;
    if t' == t {
      NothingIsLegal(t, w.job);
    } else {
      SetAttemptLegal(t, w.phase.attempt, status);
    }
  }

  predicate WritesStatus(p: Point) {
    p.MarkCompleted? || p.MarkFailed? || p.RetryToFailed? || p.RetryToRetrying? || p.RetryToQueued?
  }

  // The guarded update an owner makes at such a point.
  function StatusUpdate(p: Point, now: int): JobUpdate
    requires WritesStatus(p)
  {
    match p
    case MarkCompleted => To(Completed)
    case MarkFailed(err) => FailedUpdate(err)
    case RetryToFailed(err, _) => FailedUpdate(err)
    case RetryToRetrying(_, delay) => RetryingUpdate(now + delay)
    case RetryToQueued(_) => QueuedUpdate()
  }

  lemma OwnerStatusStep(t: Tables, w: Worker, inp: Input)
    requires w.phase.Owning? && WritesStatus(w.phase.point)
    ensures OwnerStep(t, w, inp).0
            == UpdateJobStatus(t, w.job, Expected(w.phase.point), StatusUpdate(w.phase.point, inp.now), inp.fault).0
  {
  }

  lemma OwnerUpdateFits(t: Tables, w: Worker, now: int)
    requires w.phase.Owning? && OwnerOK(t, w) && RowOK(t.jobs[w.job]) && WritesStatus(w.phase.point)
    ensures var from, upd := Expected(w.phase.point), StatusUpdate(w.phase.point, now);
            && CanTransition(from, upd.to) && !upd.incAttempt
            && (t.jobs[w.job].status == from ==> RowOK(ApplyUpdate(t.jobs[w.job], upd)))
            && (upd.to == Completed <==> w.phase.point.MarkCompleted?)
            && upd.to != JobStatus.Processing
  {
  }

  lemma OwnerStepLegal(t: Tables, w: Worker, inp: Input)
    requires TablesOK(t) && w.phase.Owning? && OwnerOK(t, w)
    ensures Legal(t, OwnerStep(t, w, inp).0, w.job)
  {
    var point := w.phase.point;
    if WritesStatus(point) {
      OwnerStatusStep(t, w, inp);
      OwnerUpdateFits(t, w, inp.now);
      OwnerWriteLegal(t, w, StatusUpdate(point, inp.now), inp.fault);
    } else {
      OwnerOtherStepLegal(t, w, inp);
    }
  }

  lemma PipelineForm(t: Tables, w: Worker, inp: Input)
    requires w.phase.Owning? && w.phase.point.RunPipeline? && w.job in t.jobs
    ensures var t' := OwnerStep(t, w, inp).0;
            t' == t || (inp.outcome.Produced? && t' == SetArtifact(t, w.job, Artifact(inp.outcome.sizeBytes)))
  {
  }

  lemma PipelineStepLegal(t: Tables, w: Worker, inp: Input)
    requires TablesOK(t) && w.phase.Owning? && w.phase.point.RunPipeline? && w.job in t.jobs
    ensures Legal(t, OwnerStep(t, w, inp).0, w.job)
  {
    PipelineForm(t, w, inp);
    if OwnerStep(t, w, inp).0 == t {
      NothingIsLegal(t, w.job);
    } else {
      ArtifactLegal(t, w.job, Artifact(inp.outcome.sizeBytes));
    }
  }

  lemma OwnerOtherStepLegal(t: Tables, w: Worker, inp: Input)
    requires TablesOK(t) && w.phase.Owning? && OwnerOK(t, w) && !WritesStatus(w.phase.point)
    ensures Legal(t, OwnerStep(t, w, inp).0, w.job)
  {
    match w.phase.point
    case RunPipeline => PipelineStepLegal(t, w, inp);
    case FinishSucceeded => OwnerFinishLegal(t, w, Succeeded, inp.fault);
    case FinishFailed(err) =>
      OwnerFinishLegal(t, w, if IsCancellation(err) then AttemptCancelled else AttemptFailed, inp.fault);
    case Recheck(_) => NothingIsLegal(t, w.job);
  }

  lemma OwnerStatusStepKeepsOwner(t: Tables, w: Worker, inp: Input)
    requires w.phase.Owning? && OwnerOK(t, w) && WritesStatus(w.phase.point)
    ensures var (t', w') := OwnerStep(t, w, inp);
            w'.job == w.job && (w'.phase.Owning? ==> OwnerOK(t', w'))
  {
  }

  lemma PipelineStepKeepsOwner(t: Tables, w: Worker, inp: Input)
    requires w.phase.Owning? && OwnerOK(t, w) && w.phase.point.RunPipeline?
    ensures var (t', w') := OwnerStep(t, w, inp);
            w'.job == w.job && (w'.phase.Owning? ==> OwnerOK(t', w'))
  {
  }

  lemma FinishStepKeepsOwner(t: Tables, w: Worker, inp: Input)
    requires w.phase.Owning? && OwnerOK(t, w)
    requires w.phase.point.FinishSucceeded? || w.phase.point.FinishFailed? || w.phase.point.Recheck?
    ensures var (t', w') := OwnerStep(t, w, inp);
            w'.job == w.job && (w'.phase.Owning? ==> OwnerOK(t', w'))
  {
  }

  lemma OwnerStepKeepsOwner(t: Tables, w: Worker, inp: Input)
    requires w.phase.Owning? && OwnerOK(t, w)
    ensures var (t', w') := OwnerStep(t, w, inp);
            w'.job == w.job && (w'.phase.Owning? ==> OwnerOK(t', w'))
  {
    if WritesStatus(w.phase.point) {
      OwnerStatusStepKeepsOwner(t, w, inp);
    } else if w.phase.point.RunPipeline? {
      PipelineStepKeepsOwner(t, w, inp);
    } else {
      FinishStepKeepsOwner(t, w, inp);
    }
  }

  // ------------------------------------------------------------------------ the claim

  // The next attempt number of a job is always free, so the UNIQUE insert of a claim cannot fail.
  lemma NextNumberFree(t: Tables, j: Uuid)
    requires IndexOK(t) && j in t.jobs
    ensures (j, t.jobs[j].attemptCount + 1) !in t.attemptIndex
  {
  }

  ghost predicate AllowedClaim(t: Tables, j: Uuid, a: Uuid) {
    j in t.jobs && t.jobs[j].status == Queued && a !in t.attempts
  }

  lemma ClaimForm(t: Tables, j: Uuid, a: Uuid)
    requires IndexOK(t) && AllowedClaim(t, j, a)
    ensures ClaimTx(t, j, a).1.Ok?
  {
    NextNumberFree(t, j);
  }

  lemma ClaimIndex(t: Tables, j: Uuid, a: Uuid)
    requires IndexOK(t) && AllowedClaim(t, j, a) && ClaimTx(t, j, a).1.Ok?
    ensures IndexOK(ClaimTx(t, j, a).0)
  {
    ClaimRowsIndexed(t, j, a);
    ClaimIndexPoints(t, j, a);
    ClaimNumbersDense(t, j, a);
  }

  lemma ClaimRowsIndexed(t: Tables, j: Uuid, a: Uuid)
    requires RowsIndexed(t) && AllowedClaim(t, j, a) && ClaimTx(t, j, a).1.Ok?
    ensures RowsIndexed(ClaimTx(t, j, a).0)
  {
  }

  lemma ClaimIndexPoints(t: Tables, j: Uuid, a: Uuid)
    requires IndexPoints(t) && AllowedClaim(t, j, a) && ClaimTx(t, j, a).1.Ok?
    ensures IndexPoints(ClaimTx(t, j, a).0)
  {
  }

  lemma ClaimNumbersDense(t: Tables, j: Uuid, a: Uuid)
    requires NumbersDense(t) && AllowedClaim(t, j, a) && ClaimTx(t, j, a).1.Ok?
    ensures NumbersDense(ClaimTx(t, j, a).0)
  {
  }

  lemma ClaimOutcome(t: Tables, j: Uuid, a: Uuid)
    requires IndexOK(t) && SucceededOK(t) && CompletedOK(t) && AllowedClaim(t, j, a) && ClaimTx(t, j, a).1.Ok?
    ensures SucceededOK(ClaimTx(t, j, a).0) && CompletedOK(ClaimTx(t, j, a).0)
  {
  }

  lemma ClaimRest(t: Tables, j: Uuid, a: Uuid)
    requires JobsOK(t) && ArtifactsOK(t) && KeysOK(t) && AllowedClaim(t, j, a) && ClaimTx(t, j, a).1.Ok?
    ensures var t' := ClaimTx(t, j, a).0;
            JobsOK(t') && ArtifactsOK(t') && KeysOK(t')
  {
  }

  lemma ClaimFrame(t: Tables, j: Uuid, a: Uuid)
    requires AllowedClaim(t, j, a) && ClaimTx(t, j, a).1.Ok?
    ensures var t' := ClaimTx(t, j, a).0;
            OnlyTouches(t, t', j) && Evolves(t, t')
  {
  }

  lemma ClaimLegal(t: Tables, j: Uuid, a: Uuid)
    requires TablesOK(t) && AllowedClaim(t, j, a)
    ensures Legal(t, ClaimTx(t, j, a).0, j)
  {
    ClaimForm(t, j, a);
    ClaimIndex(t, j, a);
    ClaimOutcome(t, j, a);
    ClaimRest(t, j, a);
    ClaimFrame(t, j, a);
  }

  lemma ClaimerOwns(t: Tables, w: Worker, inp: Input)
    requires w.phase.Loaded?
    ensures var (t', w') := WorkerStep(t, w, inp);
            w'.job == w.job && (w'.phase.Owning? ==> OwnerOK(t', w'))
  {
  }

  // A step of a handler that owns nothing changes the tables only by claiming a QUEUED job.
  lemma NonOwnerStep(t: Tables, w: Worker, inp: Input)
    requires !w.phase.Owning?
    ensures var (t', w') := WorkerStep(t, w, inp);
            && w'.job == w.job
            && (t' != t || w'.phase.Owning? ==>
                  && w.phase.Loaded? && AllowedClaim(t, w.job, inp.attemptId)
                  && t' == ClaimTx(t, w.job, inp.attemptId).0)
            && (w'.phase.Done? && !w.phase.Done? ==> !w'.phase.owned)
            && (w.phase.Done? ==> w' == w)
  {
  }

  lemma WorkerStepLegal(t: Tables, w: Worker, inp: Input)
    requires TablesOK(t) && (w.phase.Owning? ==> OwnerOK(t, w))
    ensures Legal(t, WorkerStep(t, w, inp).0, w.job)
  {
    if w.phase.Owning? {
      OwnerStepLegal(t, w, inp);
    } else {
      NonOwnerStep(t, w, inp);
      if WorkerStep(t, w, inp).0 == t {
        NothingIsLegal(t, w.job);
      } else {
        ClaimLegal(t, w.job, inp.attemptId);
      }
    }
  }

  // ------------------------------------------------------------------ request steps

  // A new PENDING row, with the key table possibly extended.
  function AddRow(t: Tables, j: Uuid, row: JobRow, keys: map<GoString, KeyRow>): Tables {
    t.(jobs := t.jobs[j := row], keys := keys)
  }

  ghost predicate AllowedInsert(t: Tables, j: Uuid, row: JobRow, keys: map<GoString, KeyRow>) {
    && j !in t.jobs && RowOK(row) && row.status == Pending
    && (forall k :: k in t.keys ==> k in keys && keys[k] == t.keys[k])
    && (forall k :: k in keys && k !in t.keys ==> k != [] && keys[k].job == j)
  }

  lemma AddRowIndex(t: Tables, j: Uuid, row: JobRow, keys: map<GoString, KeyRow>)
    requires IndexOK(t) && j !in t.jobs && row.attemptCount == 0
    ensures IndexOK(AddRow(t, j, row, keys))
  {
  }

  lemma AddRowOutcome(t: Tables, j: Uuid, row: JobRow, keys: map<GoString, KeyRow>)
    requires SucceededOK(t) && CompletedOK(t) && j !in t.jobs && row.status == Pending
    ensures SucceededOK(AddRow(t, j, row, keys)) && CompletedOK(AddRow(t, j, row, keys))
  {
  }

  lemma AddRowRest(t: Tables, j: Uuid, row: JobRow, keys: map<GoString, KeyRow>)
    requires JobsOK(t) && ArtifactsOK(t) && KeysOK(t) && AllowedInsert(t, j, row, keys)
    ensures var t' := AddRow(t, j, row, keys);
            JobsOK(t') && ArtifactsOK(t') && KeysOK(t')
  {
  }

  lemma AddRowFrame(t: Tables, j: Uuid, row: JobRow, keys: map<GoString, KeyRow>)
    requires AllowedInsert(t, j, row, keys)
    ensures var t' := AddRow(t, j, row, keys);
            OnlyTouches(t, t', j) && Evolves(t, t')
  {
  }

  lemma AddRowLegal(t: Tables, j: Uuid, row: JobRow, keys: map<GoString, KeyRow>)
    requires TablesOK(t) && AllowedInsert(t, j, row, keys)
    ensures Legal(t, AddRow(t, j, row, keys), j)
  {
    AddRowIndex(t, j, row, keys);
    AddRowOutcome(t, j, row, keys);
    AddRowRest(t, j, row, keys);
    AddRowFrame(t, j, row, keys);
  }

  function KeysAfter(t: Tables, p: NewJob, key: GoString, hash: Digest): map<GoString, KeyRow> {
    if key == [] then t.keys else t.keys[key := KeyRow(p.id, hash)]
  }

  lemma InsertForm(t: Tables, p: NewJob, key: GoString, hash: Digest)
    ensures var t' := InsertTx(t, p, key, hash).0;
            t' != t ==> t' == AddRow(t, p.id, FreshRow(p), KeysAfter(t, p, key, hash)) &&
                        AllowedInsert(t, p.id, FreshRow(p), KeysAfter(t, p, key, hash))
  {
  }

  lemma InsertLegal(t: Tables, p: NewJob, key: GoString, hash: Digest)
    requires TablesOK(t)
    ensures Legal(t, InsertTx(t, p, key, hash).0, p.id)
  {
    InsertForm(t, p, key, hash);
    if InsertTx(t, p, key, hash).0 == t {
      NothingIsLegal(t, p.id);
    } else {
      AddRowLegal(t, p.id, FreshRow(p), KeysAfter(t, p, key, hash));
    }
  }

  // A status write by a request: PENDING -> QUEUED, or to CANCELLED from a status that allows it.
  lemma RequestWriteLegal(t: Tables, j: Uuid, from: JobStatus, to: JobStatus, fault: Fault)
    requires TablesOK(t)
    requires (from == Pending && to == Queued) || to == Cancelled
    ensures Legal(t, UpdateJobStatus(t, j, from, To(to), fault).0, j)
  {
    var t' := UpdateJobStatus(t, j, from, To(to), fault).0;
    if t' == t {
      NothingIsLegal(t, j);
    } else {
      RequestWriteAllowed(t, j, To(to));
      SetRowLegal(t, j, ApplyUpdate(t.jobs[j], To(to)));
    }
  }

  lemma RequestWriteAllowed(t: Tables, j: Uuid, upd: JobUpdate)
    requires JobsOK(t) && IndexOK(t) && SucceededOK(t) && j in t.jobs
    requires upd == To(upd.to) && CanTransition(t.jobs[j].status, upd.to)
    requires (t.jobs[j].status == Pending && upd.to == Queued) || upd.to == Cancelled
    ensures AllowedWrite(t, j, ApplyUpdate(t.jobs[j], upd))
  {
  }

  // The job a create step may touch.
  function CreateTarget(c: Creator): Uuid {
    match c.phase
    case Enqueuing(id, _, _) => id
    case _ => c.req.job.id
  }

  lemma CreateForm(t: Tables, c: Creator, inp: Input)
    ensures var t' := CreateStep(t, c, inp).0;
            || t' == t
            || (c.phase.Inserting? && t' == InsertTx(t, c.req.job, c.req.key, c.req.hash).0)
            || (c.phase.Enqueuing? && t' == UpdateJobStatus(t, c.phase.id, Pending, To(Queued), inp.fault).0)
  {
  }

  lemma CreateStepLegal(t: Tables, c: Creator, inp: Input)
    requires TablesOK(t)
    ensures Legal(t, CreateStep(t, c, inp).0, CreateTarget(c))
  {
    CreateForm(t, c, inp);
    var t', j := CreateStep(t, c, inp).0, CreateTarget(c);
    if t' == t {
      NothingIsLegal(t, j);
    } else if c.phase.Inserting? {
      InsertLegal(t, c.req.job, c.req.key, c.req.hash);
    } else {
      RequestWriteLegal(t, j, Pending, Queued, inp.fault);
    }
  }

  lemma CancelForm(t: Tables, c: Canceller, inp: Input)
    ensures var t' := CancelStep(t, c, inp).0;
            || t' == t
            || (c.phase.Trying? && t' == UpdateJobStatus(t, c.job, c.phase.seen, To(Cancelled), inp.fault).0)
  {
  }

  lemma CancelStepLegal(t: Tables, c: Canceller, inp: Input)
    requires TablesOK(t)
    ensures Legal(t, CancelStep(t, c, inp).0, c.job)
  {
    CancelForm(t, c, inp);
    if CancelStep(t, c, inp).0 == t {
      NothingIsLegal(t, c.job);
    } else {
      RequestWriteLegal(t, c.job, c.phase.seen, Cancelled, inp.fault);
    }
  }
}
