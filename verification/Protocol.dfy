/**
 The job-processing protocol as a transition system. Any number of worker
 handlers, create requests and cancel requests run at once; each of their steps
 is one SQL statement, transaction or publish, and is a function of the shared
 tables and the actor's own local state. An event names the actor that moves and
 supplies everything the code does not control: faults, pipeline outcomes, ids,
 clock readings and random draws.
 */
module Protocol {
  import opened GoTypes
  import opened Errors
  import opened Domain
  import opened RequestHash
  import opened ObjectKeys
  import opened Store
  import Backoff

  datatype Outcome = Produced(sizeBytes: nat) | Stopped(failure: RunFailure)

  // `storeError` is the error value a failing artifact write returns.
  datatype Input = Input(fault: Fault, attemptId: Uuid, outcome: Outcome, storeError: Err, now: int, draw: nat)

  // ------------------------------------------------------------------ workers

  datatype Decision = Complete | Retry(after: int) | Discard

  /** Where a handler that won the claim stands: the store call it makes next. */
  datatype Point =
    | RunPipeline
    | FinishSucceeded
    | MarkCompleted
    | FinishFailed(err: Err)
    | Recheck(err: Err)
    | MarkFailed(err: Err)
    | RetryToFailed(err: Err, delay: int)
    | RetryToRetrying(err: Err, delay: int)
    | RetryToQueued(delay: int)

  /** `Owning` lasts from a successful claim until the handler returns; `row` is
      the handler's private copy of the job row as the claim returned it. */
  datatype Phase =
    | Delivered
    | Loaded
    | Owning(row: JobRow, attempt: Uuid, point: Point)
    | Done(decision: Decision, owned: bool)
    | Gone

  // `clean`: no finalising status write of this handler met a fault so far.
  datatype Worker = Worker(job: Uuid, phase: Phase, clean: bool)

  predicate Owns(w: Worker) { w.phase.Owning? }

  function Release(w: Worker, d: Decision): Worker { w.(phase := Done(d, w.phase.Owning?)) }

  function At(w: Worker, p: Point): Worker
    requires w.phase.Owning?
  {
    w.(phase := w.phase.(point := p))
  }

  function WroteStatus(w: Worker, fault: Fault): Worker { w.(clean := w.clean && fault.Clean?) }

  function Artifact(size: nat): ArtifactRow { ArtifactRow("output", "image/jpeg", size) }

  // After the failed attempt was recorded: honour a cancel, else fail or retry.
  function AfterRecheck(w: Worker, reply: Reply<JobRow>, err: Err, draw: nat): Worker
    requires w.phase.Owning?
  {
    var row := w.phase.row;
    if reply.Ok? && reply.value.status == Cancelled then Release(w, Complete)
    else if IsPermanent(err) then At(w, MarkFailed(err))
    else if row.attemptCount < row.maxAttempts then
      At(w, RetryToFailed(err, Backoff.Delay(row.attemptCount, draw)))
    else At(w, MarkFailed(err))
  }

  function FailedUpdate(err: Err): JobUpdate { To(Failed).(setLastError := Some(err)) }
  function RetryingUpdate(at: int): JobUpdate { To(Retrying).(setNextRetryAt := Some(at)) }
  function QueuedUpdate(): JobUpdate { To(Queued).(clearNextRetry := true) }

  // One step of a handler that owns its job.
  function OwnerStep(t: Tables, w: Worker, inp: Input): (Tables, Worker)
    requires w.phase.Owning?
  {
    var Owning(row, attempt, point) := w.phase;
    match point
    case RunPipeline => (
      match inp.outcome
      case Stopped(failure) => (t, At(w, FinishFailed(Tag(failure))))
      case Produced(size) =>
        var (t', r) := AddArtifact(t, w.job, ResultKey(w.job), Artifact(size), inp.fault);
        (t', At(w, if r.Ok? then FinishSucceeded else FinishFailed(Tag(ArtifactNotRecorded(inp.storeError))))))
    case FinishSucceeded =>
      var (t', r) := FinishAttempt(t, attempt, Succeeded, inp.fault);
      (t', if r.Ok? then At(w, MarkCompleted) else Release(w, Retry(0)))
    case MarkCompleted =>
      var (t', r) := UpdateJobStatus(t, w.job, JobStatus.Processing, To(Completed), inp.fault);
      (t', WroteStatus(Release(w, if r.Ok? || r.error == Conflict then Complete else Retry(0)), inp.fault))
    case FinishFailed(err) =>
      var status := if IsCancellation(err) then AttemptCancelled else AttemptFailed;
      var (t', _) := FinishAttempt(t, attempt, status, inp.fault);
      (t', At(w, Recheck(err)))
    case Recheck(err) =>
      (t, AfterRecheck(w, GetJob(t, w.job, inp.fault), err, inp.draw))
    case MarkFailed(err) =>
      var (t', _) := UpdateJobStatus(t, w.job, JobStatus.Processing, FailedUpdate(err), inp.fault);
      (t', WroteStatus(Release(w, Complete), inp.fault))
    case RetryToFailed(err, delay) =>
      var (t', r) := UpdateJobStatus(t, w.job, JobStatus.Processing, FailedUpdate(err), inp.fault);
      (t', WroteStatus(if r.Ok? then At(w, RetryToRetrying(err, delay)) else Release(w, Retry(delay)), inp.fault))
    case RetryToRetrying(err, delay) =>
      var (t', r) := UpdateJobStatus(t, w.job, Failed, RetryingUpdate(inp.now + delay), inp.fault);
      (t', WroteStatus(if r.Ok? then At(w, RetryToQueued(delay)) else Release(w, Retry(delay)), inp.fault))
    case RetryToQueued(delay) =>
      var (t', _) := UpdateJobStatus(t, w.job, Retrying, QueuedUpdate(), inp.fault);
      (t', WroteStatus(Release(w, Retry(delay)), inp.fault))
  }

  function WorkerStep(t: Tables, w: Worker, inp: Input): (Tables, Worker) {
    match w.phase
    case Delivered => (
      match GetJob(t, w.job, inp.fault)
      case Fail(NotFound) => (t, Release(w, Discard))
      case Fail(_) => (t, Release(w, Retry(0)))
      case Ok(row) => (t, if IsTerminal(row.status) then Release(w, Complete) else w.(phase := Loaded)))
    case Loaded => (
      var (t', r) := BeginAttempt(t, w.job, inp.attemptId, inp.fault);
      match r
      case Ok(row) => (t', w.(phase := Owning(row, inp.attemptId, RunPipeline)))
      case Fail(Conflict) => (t', Release(w, Complete))
      case Fail(_) => (t', Release(w, Retry(0))))
    case Owning(_, _, _) => OwnerStep(t, w, inp)
    case Done(_, _) => (t, w)
    case Gone => (t, w)
  }

  // ---------------------------------------------------------- create requests

  // A validated request: CreateJob has trimmed, decoded and checked its input.
  // `hash` is its fingerprint.
  datatype Request = Request(job: NewJob, key: GoString, hash: Digest)

  datatype CreateReply =
    | Accepted(id: Uuid, row: JobRow, created: bool)
    | Rejected(error: StoreError)
    | EnqueueFailed(id: Uuid, created: bool)

  datatype CreatePhase =
    | Inserting
    | ResolvingKey
    | ReadingJob(id: Uuid)
    | Enqueuing(id: Uuid, row: JobRow, created: bool)
    | Publishing(id: Uuid, row: JobRow, created: bool)
    | Reloading(id: Uuid, created: bool)
    | Answered(reply: CreateReply)
    | Abandoned

  datatype Creator = Creator(req: Request, phase: CreatePhase)

  function AfterLookup(c: Creator, id: Uuid, row: JobRow, created: bool): Creator {
    c.(phase := if row.status == Pending then Enqueuing(id, row, created) else Answered(Accepted(id, row, created)))
  }

  // A publish is attempted at most once per step; `Dropped` means nothing reached the stream.
  datatype Message = Message(job: Uuid, byApi: bool)

  function CreateStep(t: Tables, c: Creator, inp: Input): (Tables, seq<Message>, Creator) {
    var p := c.req.job;
    match c.phase
    case Inserting => (
      var (t', r) := InsertJob(t, p, c.req.key, c.req.hash, inp.fault);
      match r
      case Ok(Inserted(row)) => (t', [], AfterLookup(c, p.id, row, true))
      case Ok(KeyTaken) => (t', [], c.(phase := ResolvingKey))
      case Fail(e) => (t', [], c.(phase := Answered(Rejected(e)))))
    case ResolvingKey => (
      match ResolveKey(t, c.req.key, c.req.hash, inp.fault)
      case Ok(id) => (t, [], c.(phase := ReadingJob(id)))
      case Fail(e) => (t, [], c.(phase := Answered(Rejected(e)))))
    case ReadingJob(id) => (
      match GetJob(t, id, inp.fault)
      case Ok(row) => (t, [], AfterLookup(c, id, row, false))
      case Fail(e) => (t, [], c.(phase := Answered(Rejected(e)))))
    case Enqueuing(id, row, created) => (
      var (t', r) := UpdateJobStatus(t, id, Pending, To(Queued), inp.fault);
      match r
      case Ok(queued) => (t', [], c.(phase := Publishing(id, queued, created)))
      case Fail(Conflict) => (t', [], c.(phase := Reloading(id, created)))
      case Fail(_) => (t', [], c.(phase := Answered(EnqueueFailed(id, created)))))
    case Publishing(id, row, created) =>
      (t, if inp.fault.Dropped? then [] else [Message(id, true)],
       c.(phase := Answered(if inp.fault.Clean? then Accepted(id, row, created) else EnqueueFailed(id, created))))
    case Reloading(id, created) => (
      match GetJob(t, id, inp.fault)
      case Ok(row) => (t, [], c.(phase := Answered(Accepted(id, row, created))))
      case Fail(_) => (t, [], c.(phase := Answered(EnqueueFailed(id, created)))))
    case Answered(_) => (t, [], c)
    case Abandoned => (t, [], c)
  }

  // ---------------------------------------------------------- cancel requests

  const MAX_TRIES: nat := 2

  datatype CancelReply = CancelOk(row: JobRow) | NotCancellable | CancelFailed(error: StoreError)

  datatype CancelPhase =
    | Loading
    | Trying(try: nat, seen: JobStatus)
    | CancelReloading(try: nat)
    | CancelDone(reply: CancelReply)
    | CancelGone

  datatype Canceller = Canceller(job: Uuid, phase: CancelPhase)

  function CancelStep(t: Tables, c: Canceller, inp: Input): (Tables, Canceller) {
    match c.phase
    case Loading => (
      match GetJob(t, c.job, inp.fault)
      case Ok(row) => (t, c.(phase := Trying(0, row.status)))
      case Fail(e) => (t, c.(phase := CancelDone(CancelFailed(e)))))
    case Trying(try, seen) =>
      if !CanTransition(seen, Cancelled) then (t, c.(phase := CancelDone(NotCancellable)))
      else (
        var (t', r) := UpdateJobStatus(t, c.job, seen, To(Cancelled), inp.fault);
        match r
        case Ok(row) => (t', c.(phase := CancelDone(CancelOk(row))))
        case Fail(Conflict) => (t', c.(phase := CancelReloading(try)))
        case Fail(e) => (t', c.(phase := CancelDone(CancelFailed(e)))))
    case CancelReloading(try) => (
      match GetJob(t, c.job, inp.fault)
      case Ok(row) =>
        (t, c.(phase := if try + 1 < MAX_TRIES then Trying(try + 1, row.status) else CancelDone(NotCancellable)))
      case Fail(e) => (t, c.(phase := CancelDone(CancelFailed(e)))))
    case CancelDone(_) => (t, c)
    case CancelGone => (t, c)
  }

  // ---------------------------------------------------------------- the system

  datatype Origin = Origin(key: GoString, hash: Digest)

  /** `origin` is bookkeeping: the idempotency key and fingerprint each job row was committed under. */
  datatype State = State(
    tables: Tables,
    origin: map<Uuid, Origin>,
    published: seq<Message>,
    workers: map<nat, Worker>,
    creators: map<nat, Creator>,
    cancellers: map<nat, Canceller>)

  datatype Event =
    | Deliver(h: nat, job: Uuid)
    | WorkerMoves(h: nat, inp: Input)
    | WorkerDies(h: nat)
    | CreateArrives(r: nat, newJob: NewJob, key: GoString)
    | CreateMoves(r: nat, inp: Input)
    | CreateDies(r: nat)
    | CancelArrives(x: nat, job: Uuid)
    | CancelMoves(x: nat, inp: Input)
    | CancelDies(x: nat)
    | Republish(job: Uuid)

  function Initial(): State {
    State(Tables(map[], map[], map[], map[], map[]), map[], [], map[], map[], map[])
  }

  // The rows a create step committed, recorded under the request's key.
  function Record(origin: map<Uuid, Origin>, before: Tables, after: Tables, req: Request): map<Uuid, Origin> {
    if req.job.id !in before.jobs && req.job.id in after.jobs then origin[req.job.id := Origin(req.key, req.hash)]
    else origin
  }

  function MoveWorker(s: State, h: nat, inp: Input): State
    requires h in s.workers
  {
    var (t', w') := WorkerStep(s.tables, s.workers[h], inp);
    s.(tables := t', workers := s.workers[h := w'])
  }

  function MoveCreate(s: State, r: nat, inp: Input): State
    requires r in s.creators
  {
    var c := s.creators[r];
    var (t', sent, c') := CreateStep(s.tables, c, inp);
    s.(tables := t', origin := Record(s.origin, s.tables, t', c.req),
       published := s.published + sent, creators := s.creators[r := c'])
  }

  function MoveCancel(s: State, x: nat, inp: Input): State
    requires x in s.cancellers
  {
    var (t', c') := CancelStep(s.tables, s.cancellers[x], inp);
    s.(tables := t', cancellers := s.cancellers[x := c'])
  }

  /** Deliveries are unconstrained: a message for any job id may arrive at any
      time and any number of times, published or not. Events of absent actors
      change nothing. */
  function Next(s: State, e: Event): State {
    match e
    case Deliver(h, job) =>
      if h in s.workers then s else s.(workers := s.workers[h := Worker(job, Delivered, true)])
    case WorkerMoves(h, inp) => if h in s.workers then MoveWorker(s, h, inp) else s
    case WorkerDies(h) =>
      if h in s.workers && !s.workers[h].phase.Done? then
        s.(workers := s.workers[h := s.workers[h].(phase := Gone)])
      else s
    case CreateArrives(r, job, key) =>
      if r in s.creators then s
      else s.(creators := s.creators[r := Creator(Request(job, key, HashOf(job.spec)), Inserting)])
    case CreateMoves(r, inp) => if r in s.creators then MoveCreate(s, r, inp) else s
    case CreateDies(r) =>
      if r in s.creators && !s.creators[r].phase.Answered? then
        s.(creators := s.creators[r := s.creators[r].(phase := Abandoned)])
      else s
    case CancelArrives(x, job) =>
      if x in s.cancellers then s else s.(cancellers := s.cancellers[x := Canceller(job, Loading)])
    case CancelMoves(x, inp) => if x in s.cancellers then MoveCancel(s, x, inp) else s
    case CancelDies(x) =>
      if x in s.cancellers && !s.cancellers[x].phase.CancelDone? then
        s.(cancellers := s.cancellers[x := s.cancellers[x].(phase := CancelGone)])
      else s
    case Republish(job) => s.(published := s.published + [Message(job, false)])
  }

  function Run(s: State, events: seq<Event>): State
    decreases |events|
  {
    if events == [] then s else Run(Next(s, events[0]), events[1..])
  }
}
