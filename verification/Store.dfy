/**
 The Postgres tables and what each statement or transaction of
 internal/repository/jobs.go does to them, as functions on values.
 */
module Store {
  import opened GoTypes
  import opened Errors
  import opened Domain
  import opened RequestHash

  datatype KeyRow = KeyRow(job: Uuid, hash: Digest)

  /** The tables. Primary keys and the artifacts UNIQUE pair are map keys; the
      UNIQUE (job_id, number) index on attempts is kept beside its table. */
  datatype Tables = Tables(
    jobs: map<Uuid, JobRow>,
    attempts: map<Uuid, AttemptRow>,
    attemptIndex: map<(Uuid, nat), Uuid>,
    artifacts: map<(Uuid, GoString), ArtifactRow>,
    keys: map<GoString, KeyRow>)

  datatype StoreError = NotFound | Conflict | InvalidTransition | IdempotencyConflict | Unavailable

  datatype Reply<+T> = Ok(value: T) | Fail(error: StoreError)

  /** What the connection does to one call: nothing, lose the reply of a call
      that took effect, or drop the call before it took effect. */
  datatype Fault = Clean | LostReply | Dropped

  function Faulty<T>(fault: Fault, before: Tables, after: (Tables, Reply<T>)): (Tables, Reply<T>) {
    match fault
    case Clean => after
    case LostReply => (after.0, Fail(Unavailable))
    case Dropped => (before, Fail(Unavailable))
  }

  datatype JobUpdate = JobUpdate(
    to: JobStatus,
    incAttempt: bool,
    setLastError: Option<Err>,
    setNextRetryAt: Option<int>,
    clearNextRetry: bool)

  function To(status: JobStatus): JobUpdate { JobUpdate(status, false, None, None, false) }

  function ApplyUpdate(row: JobRow, upd: JobUpdate): JobRow {
    row.(
      status := upd.to,
      attemptCount := row.attemptCount + (if upd.incAttempt then 1 else 0),
      lastError := if upd.setLastError.Some? then upd.setLastError else row.lastError,
      nextRetryAt := if upd.setNextRetryAt.Some? then upd.setNextRetryAt
                     else if upd.clearNextRetry then None
                     else row.nextRetryAt)
  }

  function GetJobReply(t: Tables, id: Uuid): Reply<JobRow> {
    if id in t.jobs then Ok(t.jobs[id]) else Fail(NotFound)
  }

  function GetJob(t: Tables, id: Uuid, fault: Fault): Reply<JobRow> {
    if fault.Clean? then GetJobReply(t, id) else Fail(Unavailable)
  }

  // The guarded UPDATE together with classifyMissingUpdate.
  function GuardedUpdate(t: Tables, id: Uuid, from: JobStatus, upd: JobUpdate): (Tables, Reply<JobRow>) {
    if id !in t.jobs then (t, Fail(NotFound))
    else if t.jobs[id].status != from then (t, Fail(Conflict))
    else
      var row := ApplyUpdate(t.jobs[id], upd);
      (t.(jobs := t.jobs[id := row]), Ok(row))
  }

  function UpdateJobStatus(t: Tables, id: Uuid, from: JobStatus, upd: JobUpdate, fault: Fault)
    : (Tables, Reply<JobRow>)
  {
    if !CanTransition(from, upd.to) then (t, Fail(InvalidTransition))
    else Faulty(fault, t, GuardedUpdate(t, id, from, upd))
  }

  // The claim transaction: QUEUED -> PROCESSING, attempt_count + 1, and the RUNNING row.
  function ClaimTx(t: Tables, id: Uuid, attemptId: Uuid): (Tables, Reply<JobRow>) {
    if id !in t.jobs then (t, Fail(NotFound))
    else if t.jobs[id].status != Queued then (t, Fail(Conflict))
    else
      var row := t.jobs[id].(status := JobStatus.Processing, attemptCount := t.jobs[id].attemptCount + 1);
      var number := row.attemptCount;
      if attemptId in t.attempts || (id, number) in t.attemptIndex then (t, Fail(Unavailable))
      else
        (t.(jobs := t.jobs[id := row],
            attempts := t.attempts[attemptId := AttemptRow(id, number, Running)],
            attemptIndex := t.attemptIndex[(id, number) := attemptId]),
         Ok(row))
  }

  function BeginAttempt(t: Tables, id: Uuid, attemptId: Uuid, fault: Fault): (Tables, Reply<JobRow>) {
    Faulty(fault, t, ClaimTx(t, id, attemptId))
  }

  function FinishTx(t: Tables, attemptId: Uuid, status: AttemptStatus): (Tables, Reply<()>) {
    if attemptId !in t.attempts then (t, Fail(NotFound))
    else (t.(attempts := t.attempts[attemptId := t.attempts[attemptId].(status := status)]), Ok(()))
  }

  function FinishAttempt(t: Tables, attemptId: Uuid, status: AttemptStatus, fault: Fault): (Tables, Reply<()>) {
    Faulty(fault, t, FinishTx(t, attemptId, status))
  }

  // INSERT ... ON CONFLICT DO UPDATE; the job_id foreign key must resolve.
  function UpsertArtifact(t: Tables, id: Uuid, key: GoString, row: ArtifactRow): (Tables, Reply<()>) {
    if id !in t.jobs then (t, Fail(Unavailable))
    else (t.(artifacts := t.artifacts[(id, key) := row]), Ok(()))
  }

  function AddArtifact(t: Tables, id: Uuid, key: GoString, row: ArtifactRow, fault: Fault): (Tables, Reply<()>) {
    Faulty(fault, t, UpsertArtifact(t, id, key, row))
  }

  datatype NewJob = NewJob(id: Uuid, spec: JobSpec, correlation: GoString, maxAttempts: nat)

  // `KeyTaken`: the ON CONFLICT DO NOTHING insert returned no row and the transaction rolled back.
  datatype Insertion = Inserted(row: JobRow) | KeyTaken

  function FreshRow(p: NewJob): JobRow {
    JobRow(Pending, p.spec, p.correlation, 0, p.maxAttempts, None, None)
  }

  function InsertTx(t: Tables, p: NewJob, key: GoString, hash: Digest): (Tables, Reply<Insertion>) {
    if p.id in t.jobs || p.maxAttempts < 1 then (t, Fail(Unavailable))
    else if key == [] then
      (t.(jobs := t.jobs[p.id := FreshRow(p)]), Ok(Inserted(FreshRow(p))))
    else if key in t.keys then (t, Ok(KeyTaken))
    else
      (t.(jobs := t.jobs[p.id := FreshRow(p)], keys := t.keys[key := KeyRow(p.id, hash)]),
       Ok(Inserted(FreshRow(p))))
  }

  function InsertJob(t: Tables, p: NewJob, key: GoString, hash: Digest, fault: Fault): (Tables, Reply<Insertion>) {
    Faulty(fault, t, InsertTx(t, p, key, hash))
  }

  // The key lookup of resolveExisting; the caller's hash must match the stored one.
  function ResolveKey(t: Tables, key: GoString, hash: Digest, fault: Fault): Reply<Uuid> {
    if !fault.Clean? || key !in t.keys then Fail(Unavailable)
    else if t.keys[key].hash != hash then Fail(IdempotencyConflict)
    else Ok(t.keys[key].job)
  }

  /** What the reply to a guarded update tells a caller that loads the row next:
      a success is read back, a conflict is a row at another status, not found is
      final, and no other job's row has changed. */
  lemma LoadAfterUpdate(t: Tables, id: Uuid, from: JobStatus, upd: JobUpdate, fault: Fault, other: Uuid)
    ensures var (t', r) := UpdateJobStatus(t, id, from, upd, fault);
            && (r.Ok? ==> GetJob(t', id, Clean) == r && r.value.status == upd.to)
            && (r == Fail(Conflict) ==> GetJob(t', id, Clean).Ok? && GetJob(t', id, Clean).value.status != from)
            && (r == Fail(NotFound) ==> GetJob(t', id, Clean) == Fail(NotFound))
            && (r.Fail? && r.error != Unavailable ==> t' == t)
            && (fault.LostReply? && CanTransition(from, upd.to) && id in t.jobs && t.jobs[id].status == from ==>
                  r == Fail(Unavailable) && GetJob(t', id, Clean).Ok? && GetJob(t', id, Clean).value.status == upd.to)
            && (other != id ==> GetJob(t', other, Clean) == GetJob(t, other, Clean))
  {
  }
}
