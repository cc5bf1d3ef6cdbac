# Portrait Engine: the job protocol and its supporting cores

Portrait Engine processes images asynchronously. API requests create and cancel
jobs, a queue delivers pointers to them at least once, workers claim, process and
settle them, and Postgres rows with guarded updates are the only thing they share.
This project models that protocol and proves what it guarantees in every run.

`Protocol.dfy` is a transition system. Any number of worker handlers, create
requests and cancel requests run at once. A step is one SQL statement,
transaction or publish, and is a function of the shared tables and the moving
actor's own local state. Everything the code does not control is part of the
event: any message may be delivered at any time and any number of times, an actor
may die between any two steps, and each call may be lost before it takes effect
or lose its reply after it did. Ids may collide; the primary keys decide.

| file | what it holds |
|---|---|
| `GoTypes`, `Errors`, `Domain` | byte strings, the error taxonomy over wrapped errors, rows and the status table |
| `Store` | the tables, and each statement or transaction as a function on them |
| `Repository` | the repository as a class that changes its tables in place, proved against `Store` |
| `Protocol`, `ProtocolInvariant`, `ProtocolSteps`, `ProtocolPreservation` | the transition system, its inductive invariant, and why every step keeps it |
| `ProtocolTheorems`, `ProtocolRuns` | the main results about reachable states and whole runs |
| `ProtocolStranding` | the jobs the protocol loses: exactly when, and that they stay lost |
| `ProtocolWitness` | runs that reach the bounds and the gaps |
| `HandlerAnswers`, `RequestAnswers` | what handlers, creates and cancels answer and have done by then, said without the protocol's own cases: when they succeed, what success leaves in the tables and on the stream, what a refusal means |
| `Cluster`, `Handler`, `Service`, `Requeue` | the handler's, the service's and the sweep's code, run against a live system whose other actors move before every call; a schedule fixes what the others do and what each call meets, and the code is proved to make exactly the calls of the protocol's run under that schedule and to return that run's answer |
| `Pool` | the bounded worker pool: dispatcher, unbuffered channel, workers, two-phase drain |
| `RequestHash`, `ObjectKeys`, `UploadTokens`, `UploadKeys`, `Pipeline`, `Backoff` | the request fingerprint, object keys, upload tokens, the pipeline fold, the retry delay |

Three faults are distinguished (`Store.Fault`): none, a lost reply (the statement
took effect, the caller sees an error) and a dropped call (no effect, an error).
A guarded update that matches no row is classified by a second read in the
original; jobs are never deleted, so that read has one possible answer and the
two are one step here.

Where code and documentation differ the code is followed. docs/architecture.md:58
and docs/reliability.md:27 say the terminal transition is committed
transactionally with the work; the code records the attempt and updates the job in
two statements, and a fault between them leaves a SUCCEEDED attempt on a
PROCESSING job for ever. `ProtocolStranding.WorkLostInRun` says exactly when, and
`ProtocolWitness.FinishedWorkIsLost` shows the runs. README.md:170-171 names a hard
crash as what leaves a job PROCESSING; a lost reply of the claim and a lost or
dropped finalising write do so too, and leave jobs FAILED or RETRYING as well
(`ProtocolStranding.OrphansExactly`). internal/worker/pool.go:85-87 describes a
forced drain after ShutdownTimeout; the timer starts only when the dispatcher has
exited, so the dispatcher's own Nak branch is never reached.
internal/worker/handler.go:291-299 swallows the error of the final FAILED write, so
an acknowledged job can still be PROCESSING; `ProtocolStranding.CompleteExactly`
says exactly when.

A Go string is a byte sequence here. `range` over a Go string yields runes, but a
rune below 0x20 is always a single byte, so the control-character test is on bytes.

## Model

| member | source | states |
|---|---|---|
| ProtocolTheorems.ExclusiveOwnership | internal/worker/handler.go:105-133 | in every run a job has at most one handler between claim and release; its private counters are the row's, and the row is at the status its next write expects or CANCELLED |
| ProtocolTheorems.ConflictMeansCancelled | internal/worker/handler.go:196-289 | for the claiming handler a status write conflicts if and only if the job is CANCELLED, and it stays so in every continuation; the FAILED to RETRYING write never conflicts; no other error reply is possible without a fault |
| ProtocolTheorems.RetryCap | internal/worker/handler.go:248-259 | attempt_count never exceeds max_attempts, is 0 while PENDING and below the limit while QUEUED or RETRYING; next_retry_at is set while RETRYING and otherwise only on a job cancelled there |
| ProtocolTheorems.PermanentNeverRetried | internal/worker/handler.go:241-246 | no handler is on its way to a retry with a permanent error |
| ProtocolTheorems.StatusChangeBound | internal/domain/transitions.go:17-40 | any run changes a job's status at most 4 * max_attempts - 1 times, despite the retry cycle in the table |
| ProtocolTheorems.ChangesBelowRank | internal/domain/transitions.go:17-40 | from any state of the invariant, the changes still to come are bounded by a rank of the row |
| ProtocolWitness.BoundIsReached | internal/worker/handler.go:267-289 | for every attempt limit some run makes exactly that many changes |
| ProtocolTheorems.EveryWriteIsAnEdge | internal/repository/jobs.go:157-250 | every status write of every step, the claim included, is an edge of the table, and only the claim counts an attempt |
| ProtocolTheorems.EveryWriteHasItsAuthor | internal/repository/jobs.go:157-250 | PENDING to QUEUED is written only by a create, CANCELLED only by a cancel and over PENDING, QUEUED, PROCESSING or RETRYING, every other change only by a handler and along its path |
| ProtocolTheorems.EveryEdgeHasItsAuthor | internal/domain/transitions.go:17-40 | the table allows exactly the changes that one of the three writes |
| ProtocolTheorems.RunFollows | internal/domain/transitions.go:38-39 | over any run nothing is deleted, COMPLETED and CANCELLED rows are frozen, finished attempts never change, keys are never rebound |
| ProtocolTheorems.CancelIsFinal | internal/jobs/service.go:216-242 | after a successful cancel the job stays CANCELLED with its attempt count frozen, and no other cancel of it ever succeeds |
| RequestAnswers.CancelAloneDoes | internal/jobs/service.go:214-242 | an undisturbed cancel without faults cancels exactly the jobs at PENDING, QUEUED, PROCESSING or RETRYING, changing one status and nothing else, refuses those at COMPLETED, CANCELLED or FAILED, and does not find an absent one |
| RequestAnswers.CancellableExactly | internal/domain/transitions.go:17-40 | a job can be cancelled if and only if it is not at COMPLETED, CANCELLED or FAILED |
| ProtocolTheorems.CompletedMeansDone | internal/worker/handler.go:174-217 | a COMPLETED job's last attempt is SUCCEEDED and its artifacts are exactly its one result key |
| ProtocolTheorems.SuccessIsLast | internal/worker/handler.go:174-217 | a SUCCEEDED attempt is its job's last for ever, its result is recorded, and the job is never again QUEUED, FAILED or RETRYING, whatever faults occur |
| ProtocolTheorems.AttemptsAreNumbered | internal/repository/jobs.go:206-250 | a job's attempts carry the numbers 1 to attempt_count, one row each, so the UNIQUE insert of a claim cannot fail |
| ProtocolTheorems.FinishedRowsFixed | internal/repository/jobs.go:252-266 | although the finishing update is unguarded, an attempt leaves RUNNING at most once |
| ProtocolRuns.OnlyLastRuns | internal/repository/jobs.go:252-266 | in runs that drop no finish, only a job's last attempt can be RUNNING, and only while the job is PROCESSING or CANCELLED |
| ProtocolTheorems.CompleteIsSafe | internal/worker/handler.go:219-299 | if its finalising writes met no fault, a claiming handler's Complete means the job is COMPLETED, CANCELLED or FAILED without an owner, with that row kept in every continuation |
| HandlerAnswers.UnclaimedAnswers | internal/worker/handler.go:91-114 | for any schedule and faults: a job in the table is never answered Discard, an absent one is by a clean load, and a handler that never claimed answers Retry if it leaves the job QUEUED |
| HandlerAnswers.ClaimsExactly | internal/worker/handler.go:91-114 | without faults of its own a handler claims if and only if its load finds the job not at an end and its claim finds it QUEUED with an unused attempt id; otherwise it discards an absent job and acknowledges one at an end or not QUEUED |
| HandlerAnswers.ClaimedOutcome | internal/worker/handler.go:135-299 | without faults of its own, and whatever the others do, a claimed job ends COMPLETED with its result recorded and its attempt SUCCEEDED if an output was produced, FAILED with its error if that is permanent or no attempts are left, and else QUEUED with the drawn delay; only a cancel can stand in for these |
| HandlerAnswers.AloneOutcome | internal/worker/handler.go:105-299 | with nobody else about, the delivery of a QUEUED job is claimed and ends so, with no cancel |
| ProtocolStranding.CompleteExactly | internal/worker/handler.go:291-299 | a claiming handler's Complete leaves the job at an end status if and only if it was not a dropped markFailed of a job still PROCESSING |
| ProtocolWitness.CompleteIsNotEnough | internal/worker/handler.go:291-299 | a run in which such a Complete acknowledges the message of a job that is PROCESSING and nobody's |
| ProtocolStranding.OrphansStay | README.md:170-171 | a job at work (PROCESSING, RETRYING, or FAILED with a retry due) without an owner never moves again unless it is cancelled |
| ProtocolStranding.OrphansExactly | internal/worker/handler.go:105-299 | in every run a job is such an orphan if and only if it was not cancelled and at some step its owner died, its owner gave it up on a fault its point does not survive, or the reply of its claim was lost |
| ProtocolStranding.CalmRunsLoseNothing | internal/worker/handler.go:105-299 | without deaths and faults a PROCESSING or RETRYING job has an owner, and a FAILED one has an owner, no attempts left or a permanent error |
| ProtocolWitness.OrphansHappen | README.md:167-171 | runs that orphan a job at PROCESSING, at FAILED, at RETRYING, and by the lost reply of a claim |
| ProtocolStranding.WorkLostInRun | internal/worker/handler.go:196-217 | in every run a job is PROCESSING and nobody's although its last attempt SUCCEEDED if and only if it was not cancelled and at some step the reply of the finish was lost, the completion was dropped, or the owner died between the two; it stays so until cancelled |
| ProtocolStranding.WorkLostExactly | internal/worker/handler.go:201-215 | the same for one step from any state of the invariant |
| ProtocolWitness.FinishedWorkIsLost | internal/worker/handler.go:201-215 | a run for each of the three ways |
| ProtocolTheorems.ApiPublishesOnce | internal/jobs/service.go:162-202 | across all creates and self-healing replays the API publishes a job at most once |
| RequestAnswers.EnqueuedIsPublished | internal/jobs/service.go:162-202 | in runs in which no create dies or meets a fault, a job that left PENDING and is not CANCELLED has exactly one API message or a request about to publish it; a PENDING job has none |
| RequestAnswers.AcceptedIsEnqueued | internal/jobs/service.go:162-183 | in every run an accepted reply shows, and names, a job that has left PENDING, and says created=true exactly of the request's own job |
| RequestAnswers.CreateAloneDoes | internal/jobs/service.go:144-202 | an undisturbed create without faults commits, enqueues and publishes its job and is told created=true; a replay is told the bound job, enqueued and published if it was still PENDING; a reused key is refused and changes nothing |
| RequestAnswers.CleanCreatesDoNotFail | internal/jobs/service.go:166-175 | a create whose own calls meet no fault is never told that enqueuing failed, whatever duplicates run beside it |
| ProtocolTheorems.OneRowPerKey | internal/repository/jobs.go:55-97 | at most one job row is ever committed under a non-empty idempotency key |
| ProtocolTheorems.OneCreatorPerKey | internal/repository/jobs.go:83-88 | at most one request with a key learns created=true |
| ProtocolTheorems.AcceptedMatches | internal/jobs/service.go:144-157 | an accepted request, fresh or replayed, is answered with a job whose object key, pipeline and version are its own and to which its key is bound |
| ProtocolTheorems.RepliesAgree | internal/repository/jobs.go:99-116 | all accepted replies under one key name one job |
| ProtocolTheorems.MismatchChangesNothing | internal/repository/jobs.go:108-110 | every request whose key is bound under another fingerprint, however far it got, is only ever rejected, and no step of its own changes a row or publishes |
| ProtocolTheorems.MismatchStep | internal/repository/jobs.go:99-110 | without faults its rejection is the idempotency conflict |
| ProtocolTheorems.KeysFixed | migrations/000001_init.up.sql:81-88 | the binding of a key never changes |
| ProtocolRuns.TotalDelayBound | internal/worker/handler.go:250-258 | over any run a job is scheduled for at most max_attempts - 1 retries, with delays of at most 60 s each in total |
| ProtocolPreservation.RunKeeps | internal/worker/handler.go:74-133 | the invariant holds after every run of the whole system |
| ProtocolSteps.OwnerStepLegal | internal/worker/handler.go:135-299 | every step of an owning handler keeps the table invariants, touches only its own job and follows the status table |
| ProtocolSteps.NextNumberFree | migrations/000001_init.up.sql:41-43 | the next attempt number of a job is always free |
| ProtocolPreservation.SameJobOwnsNothing | internal/worker/handler.go:105-114 | while a job has an owner, no step of another handler on it changes the tables or gains ownership |
| Store.LoadAfterUpdate | internal/repository/jobs.go:130-204 | what a load after a guarded update shows: the written row after a success or a lost reply, another status after a conflict, no row after not found; other jobs' rows are unchanged |
| Repository.JobRepository.UpdateJobStatus | internal/repository/jobs.go:152-204 | the guarded update, its validation, and the classification of a missed one, under every fault |
| Repository.JobRepository.BeginAttempt | internal/repository/jobs.go:203-250 | the claim is all or nothing: a failed attempt insert rolls the job update back |
| Repository.JobRepository.FinishAttempt | internal/repository/jobs.go:252-266 | the attempt's new status, or not found |
| Repository.JobRepository.AddArtifact | internal/repository/jobs.go:289-308 | the upsert leaves one row per job and key |
| Repository.JobRepository.InsertJob | internal/repository/jobs.go:55-97 | a taken key rolls the job row back |
| ProtocolTheorems.LookupMeans | internal/repository/jobs.go:99-110 | in every run the lookup of a bound key answers with a job if and only if that job asks for the same object, pipeline and version, and with the idempotency conflict if and only if it does not |
| Handler.JobHandler.Handle | internal/worker/handler.go:73-133 | for every schedule and fault the system makes the delivery and then exactly the handler's calls with the schedule's inputs, up to the call that settles the answer; a job in the table is never discarded, an absent one is, a QUEUED one left unclaimed is retried, and a claimed one ends as its pipeline did |
| Handler.JobHandler.RunPipeline | internal/worker/handler.go:135-194 | a produced output is recorded before success is claimed; every failure is tagged for the failure path |
| Handler.JobHandler.FinalizeSuccess | internal/worker/handler.go:196-217 | the attempt is finished, then the guarded completion; the decision is the protocol's |
| Handler.JobHandler.FinalizeFailure | internal/worker/handler.go:219-265 | finish, look for a cancel, then fail or retry; the decision is the protocol's |
| Handler.JobHandler.ScheduleRetry | internal/worker/handler.go:267-289 | three guarded writes in order, stopping at the first error |
| Handler.JobHandler.MarkJobFailed | internal/worker/handler.go:291-299 | the final failure, answered Complete whatever the write says |
| Handler.JobHandler.WatchCancellation | internal/worker/handler.go:324-354 | the watcher cancels at the first poll that is answered with a CANCELLED row, and otherwise polls to the end without cancelling |
| Service.JobService.CreateJob | internal/jobs/service.go:144-202 | for every schedule and fault exactly the request's steps, and the reply, created flag included, is the protocol's for that run and true of the state it is given in; undisturbed, the job is committed, enqueued and published, or the replay or refusal that is due is given |
| Service.JobService.CancelJob | internal/jobs/service.go:214-242 | for every schedule and fault exactly the request's steps; without faults success comes if and only if one of two tries finds a cancellable job at the status it was last seen at, and it then changed that status and nothing else |
| Service.JobService.CancelLoop | internal/jobs/service.go:222-241 | success only if a try finds the job still at the cancellable status it was seen at, refusal only if neither of the two does, failure only for a fault or a missing job |
| Requeue.Sweep | internal/worker/requeue.go:37-64 | one failing publish does not stop the sweep; every publish that was not dropped is among the messages; job rows are not touched; the count is the number of publishes that met no fault |
| Errors.PermanentExactly | internal/worker/handler.go:137-193 | which pipeline failures end a job at once: resolve, missing input, decode, and a stage error that is both permanent and a cancellation |
| Errors.StagePermanenceIsLost | internal/worker/handler.go:162-166 | a processor's own permanent error becomes retryable |
| Errors.NodesDecide | internal/domain/errors.go:56-73 | over any error tree the retry kind is the first tag in visiting order, an untagged error is not permanent, and it is a cancellation if and only if some node is a context error |
| Errors.TagKeepsCause | internal/worker/handler.go:137-193 | the error a stage saw is in the tree of the error runPipeline returns |
| Errors.WrappingKeepsKind | internal/domain/errors.go:56-73 | any number of wrappers changes neither |
| Pool.EveryDeliveryInOnePlace | internal/worker/pool.go:98-128 | in every schedule a pulled delivery is with the dispatcher, with exactly one worker, or settled exactly once |
| Pool.SettledByItsWorker | internal/worker/pool.go:120-126 | every settlement is made by the one worker the delivery was handed to; the dispatcher's own Nak is never reached |
| Pool.BoundsAndDrainOrder | internal/worker/pool.go:98-151 | at most n handlers run, at most n + 1 pulled deliveries are unsettled, nothing is sent on the closed channel, and processing is never cancelled while the dispatcher lives |
| Pool.ReturnedMeansSettled | internal/worker/pool.go:130-153 | when Run returns every pulled delivery is settled |
| Pool.DrainEnds | internal/worker/pool.go:130-153 | from the shutdown signal at most 2n + 7 effective steps remain, 2n + 2 from the closing of the channel, and one is always possible until Run returns, for the one or more workers NewPool sets up |
| Pool.PullsAtMostOne | internal/messaging/consumer.go:34-50 | after the signal only a call of Next already in flight can still pull a delivery |
| Pool.Process | internal/worker/pool.go:155-186 | exactly one settlement is attempted: Ack if and only if the payload parsed and the handler completed, Term if and only if it did not parse or was discarded, Nak with the delay if and only if the handler asked for it, or with 0 if it panicked |
| Pool.VerbMeans | internal/worker/pool.go:155-186 | the same of the settlements in the running pool |
| Pool.HandleWithRecovery | internal/worker/pool.go:188-209 | the handler's own decision, or Retry without delay for a panic |
| RequestHash.RequestHash | internal/jobs/service.go:244-251 | the loop's text is the encoding of the three fields, and decodes back to them |
| RequestHash.DecodeEncodedFields | internal/jobs/service.go:246-249 | the length-prefixed encoding round-trips for any number of fields of any bytes |
| RequestHash.FormatIsSpelled | internal/jobs/service.go:246-249 | the decimal length, a colon and the bytes, on an example |
| RequestHash.HashInjective | internal/jobs/service.go:153-155 | equal fingerprints mean equal object key, pipeline and version |
| Pipeline.Run | internal/pipeline/pipeline.go:71-117 | the result is the last value of the longest chain in which every stage was given what the one before it put out; the recorded steps are that prefix in order plus one FAILED step exactly when a stage errored |
| Pipeline.StoppingIsLongest | internal/pipeline/pipeline.go:85-114 | the prefix at which the loop stops is the longest one |
| Pipeline.SuccessesAt | internal/pipeline/pipeline.go:109-112 | the audit trail of a prefix has one SUCCEEDED step per stage, in order |
| UploadTokens.RoundTrip | internal/storage/keys.go:51-55 | every byte string survives encoding and decoding |
| UploadTokens.EncodesBits | internal/storage/keys.go:51-55 | three bytes are written as the four base-64 digits of one 24-bit number, a short last group as the leading digits (section 4 of RFC 4648) |
| UploadTokens.SymbolIsTabled | internal/storage/keys.go:51-55 | the digits are written in the URL-safe alphabet (table 2 of RFC 4648) |
| UploadTokens.DecodesExactly | internal/storage/keys.go:57-62 | line breaks aside, a token decodes if and only if it is written in that alphabet and leaves no single symbol over |
| UploadTokens.TokenIsCanonical | internal/storage/keys.go:57-62 | decoding is not one-to-one; a token is the encoding of what it decodes to if and only if it has no line breaks and its unused bits are zero |
| UploadTokens.SecondToken | internal/storage/keys.go:57-62 | every byte string has a second token with a line break, and one without if and only if its length is not a multiple of three |
| UploadKeys.SecondUploadToken | internal/storage/keys.go:57-68 | every accepted key has a second accepted token |
| UploadKeys.TokenRoundTrip | internal/storage/keys.go:51-68 | the token of a key decodes to the key if and only if the key is valid, and whatever decodes is valid |
| UploadKeys.AcceptedExactly | internal/storage/keys.go:70-88 | the accepted keys are "uploads" plus at least one more element, none empty, "." or holding "..", and no control character |
| UploadKeys.CleanExactly | internal/storage/keys.go:78-81 | for a relative path without "..", the clean-path test passes exactly when no element is empty or "." |
| UploadKeys.SplitJoins | internal/storage/keys.go:70-81 | the elements of a path join back to it and hold no slash |
| UploadKeys.MintedIsAccepted | internal/storage/keys.go:33-43 | every minted input key is accepted, for any date, extension and UUID |
| UploadKeys.MintedKeysDiffer | internal/storage/keys.go:33-43 | the UUID and extension can be read back from a minted key, so keys of different uploads differ |
| ObjectKeys.ResultKeyIsTheJobs | internal/storage/keys.go:45-49 | a job's result key is outputs/<id>/result.jpg, and no two jobs share one |
| Backoff.Backoff | internal/worker/retry.go:13-30 | the clamping code computes the documented curve with jitter in [ceiling/2, ceiling]; the shifted value and the random bound fit in an int64 |
| Backoff.ClampedShiftKeepsCeiling | internal/worker/retry.go:20-27 | clamping the shift loses nothing against the unbounded curve |
| Backoff.ShiftFitsExactly | internal/worker/retry.go:20-24 | the clamped shift never leaves int64; unclamped it would do so from the 34th attempt on |
| Backoff.DelayWindow | internal/worker/retry.go:13-15 | every delay lies between half the ceiling and the ceiling, at most 60 s, and the lower end never shrinks |
| Backoff.CurveDoubles | internal/worker/retry.go:8-15 | the ceiling is 2 s for the first attempt and doubles up to 60 s |
| Backoff.WindowIsTight | internal/worker/retry.go:28-29 | a delay is drawn if and only if it lies in the window |

## Left out

- HTTP routing, middleware, JSON bodies and error-to-status mapping; NATS, MinIO and pgx clients; metrics, tracing, logging, configuration and the main programs.
- Service.JobService.CreateJob: starts after validation; trimming, the upload's existence and size check, and CreateUpload are not modelled, so the triple compared is the trimmed one.
- Handler.JobHandler.RunPipeline: image decoding, encoding, the registry lookup and the blob store are one outcome chosen by the environment; every failure runPipeline can return is among them.
- Handler.JobHandler.WatchCancellation: runs on its own, not beside RunPipeline; the outcome of a pipeline is unconstrained, so a cancelled one is among those considered.
- Protocol.Next: wall-clock time, AckWait, MaxDeliver, the dedup window and job timeouts are not events of their own; deliveries, deaths and faults happen at any moment instead. Liveness of delivery is not stated.
- processing_steps rows: persistSteps ignores their write errors and nothing else reads them; the steps themselves are the result of Pipeline.Run, where the optional callback is taken to be present.
- The texts of errors: last_error keeps the error value, attempt rows no text.
- created_at, updated_at and ListRequeueable's selection by age: the sweep is given the listed jobs, and the protocol lets any job be republished.
- ListArtifacts and the unknown-state branches of ValidateTransition: the CHECK constraint keeps other statuses out of the tables.
- Pool.Next: goroutines are interleaved step by step as a transition system on values, not run as threads; what a handler does between Send and Finish is Handler.JobHandler.Handle.
- RequestHash.HashOf: SHA-256 is taken to be collision-free, a digest being its preimage.
- Freshness of UUIDs is not assumed; a collision is a primary-key error.
- internal/storage/validate.go and internal/pipeline/registry.go: single lookups.
