/** Job and attempt rows and the job state machine of internal/domain. */
module Domain {
  import opened GoTypes
  import opened Errors

  datatype JobStatus = Pending | Queued | Processing | Completed | Failed | Cancelled | Retrying

  // FAILED counts as terminal although the retry path may still leave it.
  predicate IsTerminal(s: JobStatus) { s == Completed || s == Cancelled || s == Failed }

  // The table of internal/domain/transitions.go.
  function AllowedTargets(from: JobStatus): set<JobStatus> {
    match from
    case Pending => {Queued, Cancelled}
    case Queued => {JobStatus.Processing, Cancelled}
    case Processing => {Completed, Failed, Cancelled}
    case Failed => {Retrying}
    case Retrying => {Queued, Cancelled}
    case Completed => {}
    case Cancelled => {}
  }

  predicate CanTransition(from: JobStatus, to: JobStatus) { to in AllowedTargets(from) }

  datatype AttemptStatus = Running | Succeeded | AttemptFailed | AttemptCancelled

  // What a client asks for; the part of a job row that never changes.
  datatype JobSpec = JobSpec(objectKey: GoString, pipeline: GoString, version: GoString)

  datatype JobRow = JobRow(
    status: JobStatus,
    spec: JobSpec,
    correlation: GoString,
    attemptCount: nat,
    maxAttempts: nat,
    lastError: Option<Err>,
    nextRetryAt: Option<int>)

  datatype AttemptRow = AttemptRow(job: Uuid, number: nat, status: AttemptStatus)

  datatype ArtifactRow = ArtifactRow(kind: string, contentType: string, sizeBytes: nat)
}
