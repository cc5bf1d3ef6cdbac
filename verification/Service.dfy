/**
 internal/jobs/service.go: CreateJob and CancelJob, run against a live system
 whose other actors may move before every store call or publish.
 */
module Service {
  import opened GoTypes
  import opened Domain
  import opened RequestHash
  import opened Store
  import opened Protocol
  import opened ProtocolInvariant
  import opened ProtocolPreservation
  import opened HandlerAnswers
  import opened RequestAnswers
  import opened Cluster

  predicate CreateAt(s: State, r: nat, req: Request, p: CreatePhase) {
    r in s.creators && s.creators[r] == Creator(req, p)
  }

  predicate CancelAt(s: State, x: nat, id: Uuid, p: CancelPhase) {
    x in s.cancellers && s.cancellers[x] == Canceller(id, p)
  }

  // What a caller of CreateJob can rely on from the answer alone, in the state it is given in.
  ghost predicate AnswerHolds(s: State, req: Request, reply: CreateReply) {
    match reply
    case Accepted(id, row, created) =>
      && Bound(s.tables, req, id) && row.spec == s.tables.jobs[id].spec == req.job.spec
      && s.tables.jobs[id].status != Pending && row.status != Pending && (created <==> id == req.job.id)
    case EnqueueFailed(id, created) => Bound(s.tables, req, id) && (created <==> id == req.job.id)
    case Rejected(e) =>
      e == IdempotencyConflict ==> req.key in s.tables.keys && s.tables.keys[req.key].hash != req.hash
  }

  predicate SaysCreated(reply: CreateReply) {
    match reply
    case Accepted(_, _, created) => created
    case EnqueueFailed(_, created) => created
    case Rejected(_) => false
  }

  // No other request with this key was, or is about to be, told that it created the job.
  ghost predicate OnlyCreator(s: State, r: nat, key: GoString) {
    forall q | q in s.creators && Created(s.creators[q]) :: s.creators[q].req.key == key ==> q == r
  }

  // The system has come to the request's n-th step from `start`, and no further.
  ghost predicate CameCreate(sys: System, start: State, plan: Plan, r: nat, n: nat)
    reads sys, sys.repo
  {
    sys.View() == Run(start, CreateCalls(plan, r, n))
  }

  ghost predicate CameCancel(sys: System, start: State, plan: Plan, x: nat, n: nat)
    reads sys, sys.repo
  {
    sys.View() == Run(start, CancelCalls(plan, x, n))
  }

  // The answer of a request that reached its end, from the invariant.
  lemma AnswerOf(s: State, r: nat, req: Request, reply: CreateReply)
    requires Inv(s) && CreateAt(s, r, req, Answered(reply))
    ensures AnswerHolds(s, req, reply)
  {
    assert CreatorOK(s.tables, s.creators[r]);
    if reply.Accepted? && req.key != [] {
      assert s.origin[reply.id] == Origin(req.key, req.hash);
      HashInjective(s.tables.jobs[reply.id].spec, req.job.spec);
    }
  }

  lemma ArrivalKeeps(s: State, r: nat, p: NewJob, key: GoString)
    requires OriginOK(s) && HashesOK(s) && r !in s.creators
    ensures var start := Next(s, CreateArrives(r, p, key));
            && OriginOK(start) && HashesOK(start)
            && start.tables == s.tables && start.published == s.published
            && CreateStands(start, r, s.tables, s.published, Creator(Request(p, key, HashOf(p.spec)), Inserting))
  {
  }

  lemma ArrivalIsSound(s: State, r: nat, p: NewJob, key: GoString)
    requires Inv(s)
    ensures Inv(Next(s, CreateArrives(r, p, key)))
  {
    StepKeeps(s, CreateArrives(r, p, key));
  }

  lemma ArrivalHasNotFailed(s: State, r: nat, p: NewJob, key: GoString)
    requires r !in s.creators
    ensures var start := Next(s, CreateArrives(r, p, key)); r in start.creators && !EnqueuingFailed(start, r)
  {
  }

  lemma CreatedCleanly(s: State, r: nat, p: NewJob, key: GoString, plan: Plan, n: nat)
    requires Inv(s) && r !in s.creators && CreatorPlan(plan, r) && OwnCallsClean(plan)
    ensures !EnqueuingFailed(CreateAtCall(Next(s, CreateArrives(r, p, key)), plan, r, n), r)
  {
    ArrivalIsSound(s, r, p, key);
    ArrivalHasNotFailed(s, r, p, key);
    CleanCreatesDoNotFail(Next(s, CreateArrives(r, p, key)), plan, r, n);
  }

  lemma CreatedAlone(s: State, r: nat, p: NewJob, key: GoString, plan: Plan, n: nat)
    requires OriginOK(s) && HashesOK(s) && KeysOK(s.tables)
    requires r !in s.creators && Undisturbed(plan) && p.id !in s.tables.jobs && p.maxAttempts >= 1
    requires var start := Next(s, CreateArrives(r, p, key));
             CreateAnsweredBy(start, plan, r, n) && Replied(CreateAtCall(start, plan, r, n), r)
    ensures var after := CreateAtCall(Next(s, CreateArrives(r, p, key)), plan, r, n);
            CreateDoes(s.tables, s.published, p, key, after.creators[r].phase.reply, after.tables, after.published)
  {
    ArrivalKeeps(s, r, p, key);
    CreateAloneDoes(Next(s, CreateArrives(r, p, key)), plan, r, p, key, n);
  }

  lemma OnlyOneCreated(s: State, r: nat)
    requires CreatedOK(s) && r in s.creators && Created(s.creators[r]) && s.creators[r].req.key != []
    ensures OnlyCreator(s, r, s.creators[r].req.key)
  {
  }

  // Where a round leaves the request: answered, about to try again, or out of tries.
  function AfterReload(try: nat, answer: Option<CancelReply>, fresher: JobStatus): CancelPhase {
    if answer.Some? then CancelDone(answer.value)
    else if try + 1 < MAX_TRIES then Trying(try + 1, fresher)
    else CancelDone(NotCancellable)
  }

  class JobService {
    const sys: System

    constructor (sys: System)
      ensures this.sys == sys
    {
      this.sys := sys;
    }

    // The others move up to the request's k-th step.
    method ReachCreate(r: nat, plan: Plan, k: nat, ghost start: State) returns (s: State)
      requires CreatorPlan(plan, r) && CameCreate(sys, start, plan, r, k) && r in sys.View().creators
      modifies sys, sys.repo
      ensures s == sys.View() && r in s.creators && s.creators[r] == old(sys.View()).creators[r]
      ensures MoveCreate(s, r, plan.input(k)) == Run(start, CreateCalls(plan, r, k + 1))
    {
      CreatorSpared(sys.View(), plan.before(k), r);
      OneMoreCall(start, CreateCalls(plan, r, k), plan.before(k), CreateMoves(r, plan.input(k)));
      sys.Interfere(plan.before(k));
      s := sys.View();
    }

    // The insert transaction of the repository's CreateJob.
    method Insert(r: nat, req: Request, plan: Plan, ghost start: State) returns (reply: Reply<Insertion>)
      requires CreatorPlan(plan, r) && CameCreate(sys, start, plan, r, 0) && CreateAt(sys.View(), r, req, Inserting)
      modifies sys, sys.repo
      ensures CameCreate(sys, start, plan, r, 1)
      ensures match reply
              case Ok(Inserted(row)) =>
                row == FreshRow(req.job) && CreateAt(sys.View(), r, req, Enqueuing(req.job.id, row, true))
              case Ok(KeyTaken) => CreateAt(sys.View(), r, req, ResolvingKey)
              case Fail(e) => CreateAt(sys.View(), r, req, Answered(Rejected(e)))
    {
      var inp := plan.input(0);
      var s := ReachCreate(r, plan, 0, start);
      reply := sys.repo.InsertJob(req.job, req.key, req.hash, inp.fault);
      sys.Record(MoveCreate(s, r, inp));
    }

    // resolveExisting: look the key up, then load the job it names.
    method LookupKey(r: nat, req: Request, plan: Plan, ghost start: State) returns (found: Reply<Uuid>)
      requires CreatorPlan(plan, r) && CameCreate(sys, start, plan, r, 1) && CreateAt(sys.View(), r, req, ResolvingKey)
      modifies sys, sys.repo
      ensures CameCreate(sys, start, plan, r, 2)
      ensures CreateAt(sys.View(), r, req,
                       if found.Ok? then ReadingJob(found.value) else Answered(Rejected(found.error)))
    {
      var inp := plan.input(1);
      var s := ReachCreate(r, plan, 1, start);
      found := sys.repo.LookupKey(req.key, req.hash, inp.fault);
      sys.Record(MoveCreate(s, r, inp));
    }

    method LoadExisting(r: nat, req: Request, id: Uuid, plan: Plan, ghost start: State) returns (job: Reply<JobRow>)
      requires CreatorPlan(plan, r) && CameCreate(sys, start, plan, r, 2)
      requires CreateAt(sys.View(), r, req, ReadingJob(id))
      modifies sys, sys.repo
      ensures CameCreate(sys, start, plan, r, 3)
      ensures CreateAt(sys.View(), r, req,
                       if job.Fail? then Answered(Rejected(job.error))
                       else if job.value.status == Pending then Enqueuing(id, job.value, false)
                       else Answered(Accepted(id, job.value, false)))
      ensures job.Ok? ==> plan.input(2).fault.Clean?
    {
      var inp := plan.input(2);
      var s := ReachCreate(r, plan, 2, start);
      job := sys.repo.GetJob(id, inp.fault);
      sys.Record(MoveCreate(s, r, inp));
    }

    // The guarded PENDING -> QUEUED of enqueue: the request's k-th step.
    method Advance(r: nat, req: Request, id: Uuid, ghost row: JobRow, created: bool, plan: Plan, k: nat,
                   ghost start: State)
      returns (queued: Reply<JobRow>)
      requires CreatorPlan(plan, r) && CameCreate(sys, start, plan, r, k)
      requires CreateAt(sys.View(), r, req, Enqueuing(id, row, created))
      modifies sys, sys.repo
      ensures CameCreate(sys, start, plan, r, k + 1) && CreateAnsweredBy(start, plan, r, k + 1)
      ensures CreateAt(sys.View(), r, req,
                       if queued.Ok? then Publishing(id, queued.value, created)
                       else if queued.error == Conflict then Reloading(id, created)
                       else Answered(EnqueueFailed(id, created)))
    {
      var inp := plan.input(k);
      var s := ReachCreate(r, plan, k, start);
      queued := sys.repo.UpdateJobStatus(id, Pending, To(Queued), inp.fault);
      sys.Record(MoveCreate(s, r, inp));
    }

    method Publish(r: nat, req: Request, id: Uuid, row: JobRow, created: bool, plan: Plan, k: nat, ghost start: State)
      returns (reply: CreateReply)
      requires CreatorPlan(plan, r) && CameCreate(sys, start, plan, r, k)
      requires CreateAt(sys.View(), r, req, Publishing(id, row, created))
      modifies sys, sys.repo
      ensures CameCreate(sys, start, plan, r, k + 1) && CreateAnsweredBy(start, plan, r, k + 1)
      ensures CreateAt(sys.View(), r, req, Answered(reply))
      ensures plan.input(k).fault.Clean? <==> reply.Accepted?
      ensures reply.Accepted? ==> Message(id, true) in sys.View().published
    {
      var inp := plan.input(k);
      var s := ReachCreate(r, plan, k, start);
      sys.Record(MoveCreate(s, r, inp));
      reply := if inp.fault.Clean? then Accepted(id, row, created) else EnqueueFailed(id, created);
    }

    // A concurrent duplicate advanced the job: answer with its current state.
    method Reload(r: nat, req: Request, id: Uuid, created: bool, plan: Plan, k: nat, ghost start: State)
      returns (reply: CreateReply)
      requires CreatorPlan(plan, r) && CameCreate(sys, start, plan, r, k)
      requires CreateAt(sys.View(), r, req, Reloading(id, created))
      modifies sys, sys.repo
      ensures CameCreate(sys, start, plan, r, k + 1) && CreateAnsweredBy(start, plan, r, k + 1)
      ensures CreateAt(sys.View(), r, req, Answered(reply))
      ensures reply.Accepted? ==> plan.input(k).fault.Clean?
    {
      var inp := plan.input(k);
      var s := ReachCreate(r, plan, k, start);
      var cur := sys.repo.GetJob(id, inp.fault);
      sys.Record(MoveCreate(s, r, inp));
      reply := if cur.Ok? then Accepted(id, cur.value, created) else EnqueueFailed(id, created);
    }

    // Enqueue a job seen PENDING, from the request's k-th step on.
    method Enqueue(r: nat, req: Request, id: Uuid, row: JobRow, created: bool, plan: Plan, k: nat, ghost start: State)
      returns (reply: CreateReply, ghost calls: nat)
      requires CreatorPlan(plan, r) && CameCreate(sys, start, plan, r, k)
      requires CreateAt(sys.View(), r, req, Enqueuing(id, row, created))
      modifies sys, sys.repo
      ensures CameCreate(sys, start, plan, r, calls) && CreateAnsweredBy(start, plan, r, calls)
      ensures CreateAt(sys.View(), r, req, Answered(reply))
      ensures reply.Accepted? ==> calls >= 1 && plan.input(calls - 1).fault.Clean?
    {
      var queued := Advance(r, req, id, row, created, plan, k, start);
      if queued.Ok? {
        reply := Publish(r, req, id, queued.value, created, plan, k + 1, start);
        return reply, k + 2;
      }
      if queued.error == Conflict {
        reply := Reload(r, req, id, created, plan, k + 1, start);
        return reply, k + 2;
      }
      return EnqueueFailed(id, created), k + 1;
    }

    method CreateOrResolve(r: nat, req: Request, plan: Plan, ghost start: State)
      returns (reply: CreateReply, ghost calls: nat)
      requires CreatorPlan(plan, r) && CameCreate(sys, start, plan, r, 0) && CreateAt(sys.View(), r, req, Inserting)
      modifies sys, sys.repo
      ensures CameCreate(sys, start, plan, r, calls) && CreateAnsweredBy(start, plan, r, calls)
      ensures CreateAt(sys.View(), r, req, Answered(reply))
      ensures reply.Accepted? ==> calls >= 1 && plan.input(calls - 1).fault.Clean?
    {
      var inserted := Insert(r, req, plan, start);
      if inserted.Fail? {
        return Rejected(inserted.error), 1;
      }
      if inserted.value.Inserted? {
        reply, calls := Enqueue(r, req, req.job.id, inserted.value.row, true, plan, 1, start);
        return;
      }
      reply, calls := ResolveExisting(r, req, plan, start);
    }

    // The replay of a key that is taken, from the request's second step on.
    method ResolveExisting(r: nat, req: Request, plan: Plan, ghost start: State)
      returns (reply: CreateReply, ghost calls: nat)
      requires CreatorPlan(plan, r) && CameCreate(sys, start, plan, r, 1) && CreateAt(sys.View(), r, req, ResolvingKey)
      modifies sys, sys.repo
      ensures CameCreate(sys, start, plan, r, calls) && CreateAnsweredBy(start, plan, r, calls)
      ensures CreateAt(sys.View(), r, req, Answered(reply))
      ensures reply.Accepted? ==> calls >= 1 && plan.input(calls - 1).fault.Clean?
    {
      var found := LookupKey(r, req, plan, start);
      if found.Fail? {
        return Rejected(found.error), 2;
      }
      var job := LoadExisting(r, req, found.value, plan, start);
      if job.Fail? {
        return Rejected(job.error), 3;
      }
      if job.value.status != Pending {
        return Accepted(found.value, job.value, false), 3;
      }
      reply, calls := Enqueue(r, req, found.value, job.value, false, plan, 3, start);
    }

    /** CreateJob, after validation. For every schedule of the other actors and
        every fault the system makes exactly the request's steps, and the reply is
        the protocol's for that run; undisturbed it commits, enqueues and publishes
        the job, or answers a replay. It is true of the state it is given in: an
        accepted job has the request's own object key, pipeline and version and is
        the one its key is bound to, created=true goes to no other request with
        the key, and a key conflict is real. */
    method CreateJob(r: nat, p: NewJob, key: GoString, plan: Plan) returns (reply: CreateReply, ghost calls: nat)
      requires Inv(sys.View()) && r !in sys.View().creators && CreatorPlan(plan, r)
      modifies sys, sys.repo
      ensures sys.View() == Run(old(sys.View()), [CreateArrives(r, p, key)] + CreateCalls(plan, r, calls))
      ensures CreateAnsweredBy(Next(old(sys.View()), CreateArrives(r, p, key)), plan, r, calls)
      ensures Inv(sys.View()) && CreateAt(sys.View(), r, Request(p, key, HashOf(p.spec)), Answered(reply))
      ensures AnswerHolds(sys.View(), Request(p, key, HashOf(p.spec)), reply)
      ensures SaysCreated(reply) && key != [] ==> OnlyCreator(sys.View(), r, key)
      ensures OwnCallsClean(plan) ==> !reply.EnqueueFailed?
      ensures reply.Accepted? ==> calls >= 1 && plan.input(calls - 1).fault.Clean?
      ensures Undisturbed(plan) && p.id !in old(sys.View()).tables.jobs && p.maxAttempts >= 1 ==>
                CreateDoes(old(sys.View()).tables, old(sys.View()).published, p, key,
                           reply, sys.View().tables, sys.View().published)
    {
      var hash := RequestHash.RequestHash(p.spec.objectKey, p.spec.pipeline, p.spec.version);
      assert p.spec == JobSpec(p.spec.objectKey, p.spec.pipeline, p.spec.version);
      ghost var s := sys.View();
      reply, calls := CreateFresh(r, Request(p, key, hash), plan);
      RunFirst(s, CreateArrives(r, p, key), CreateCalls(plan, r, calls));
      RunKeeps(s, [CreateArrives(r, p, key)] + CreateCalls(plan, r, calls));
      AnswerOf(sys.View(), r, Request(p, key, hash), reply);
      if SaysCreated(reply) && key != [] {
        OnlyOneCreated(sys.View(), r);
      }
      if OwnCallsClean(plan) {
        CreatedCleanly(s, r, p, key, plan, calls);
      }
      if Undisturbed(plan) && p.id !in s.tables.jobs && p.maxAttempts >= 1 {
        CreatedAlone(s, r, p, key, plan, calls);
      }
    }

    method CreateFresh(r: nat, req: Request, plan: Plan) returns (reply: CreateReply, ghost calls: nat)
      requires r !in sys.View().creators && CreatorPlan(plan, r) && req.hash == HashOf(req.job.spec)
      modifies sys, sys.repo
      ensures var start := Next(old(sys.View()), CreateArrives(r, req.job, req.key));
              CameCreate(sys, start, plan, r, calls) && CreateAnsweredBy(start, plan, r, calls)
      ensures CreateAt(sys.View(), r, req, Answered(reply))
      ensures reply.Accepted? ==> calls >= 1 && plan.input(calls - 1).fault.Clean?
    {
      var start := Next(sys.View(), CreateArrives(r, req.job, req.key));
      sys.Record(start);
      reply, calls := CreateOrResolve(r, req, plan, start);
    }

    // ------------------------------------------------------------------- cancelling

    method ReachCancel(x: nat, plan: Plan, k: nat, ghost start: State) returns (s: State)
      requires CancellerPlan(plan, x) && CameCancel(sys, start, plan, x, k) && x in sys.View().cancellers
      modifies sys, sys.repo
      ensures s == sys.View() == CancelMet(start, plan, x, k)
      ensures x in s.cancellers && s.cancellers[x] == old(sys.View()).cancellers[x]
      ensures MoveCancel(s, x, plan.input(k)) == Run(start, CancelCalls(plan, x, k + 1))
    {
      CancellerSpared(sys.View(), plan.before(k), x);
      OneMoreCall(start, CancelCalls(plan, x, k), plan.before(k), CancelMoves(x, plan.input(k)));
      sys.Interfere(plan.before(k));
      s := sys.View();
    }

    // A load of the job, before the first try or after a conflict: the request's k-th step.
    method LoadForCancel(x: nat, id: Uuid, ghost p: CancelPhase, plan: Plan, k: nat, ghost start: State)
      returns (job: Reply<JobRow>)
      requires CancellerPlan(plan, x) && CameCancel(sys, start, plan, x, k) && CancelAt(sys.View(), x, id, p)
      requires p.Loading? || p.CancelReloading?
      modifies sys, sys.repo
      ensures CameCancel(sys, start, plan, x, k + 1) && CancelAnsweredBy(start, plan, x, k + 1)
      ensures CancelAt(sys.View(), x, id,
                       if job.Fail? then CancelDone(CancelFailed(job.error))
                       else if p.Loading? then Trying(0, job.value.status)
                       else if p.try + 1 < MAX_TRIES then Trying(p.try + 1, job.value.status)
                       else CancelDone(NotCancellable))
      ensures if job.Ok? then Seen(start, plan, x, id, k) == Some(job.value.status)
              else HinderedAt(start, plan, x, id, k)
    {
      var inp := plan.input(k);
      var s := ReachCancel(x, plan, k, start);
      job := sys.repo.GetJob(id, inp.fault);
      sys.Record(MoveCancel(s, x, inp));
    }

    // The guarded update of one try: an answer unless it conflicts.
    method TryCancel(x: nat, id: Uuid, try: nat, seen: JobStatus, plan: Plan, k: nat, ghost start: State)
      returns (answer: Option<CancelReply>)
      requires CancellerPlan(plan, x) && CameCancel(sys, start, plan, x, k)
      requires CancelAt(sys.View(), x, id, Trying(try, seen)) && CanTransition(seen, Cancelled)
      modifies sys, sys.repo
      ensures CameCancel(sys, start, plan, x, k + 1) && CancelAnsweredBy(start, plan, x, k + 1)
      ensures CancelAt(sys.View(), x, id, if answer.Some? then CancelDone(answer.value) else CancelReloading(try))
      ensures TryAnswers(start, plan, x, id, k, seen, answer, sys.View())
    {
      var inp := plan.input(k);
      var s := ReachCancel(x, plan, k, start);
      CancellableExactly(seen);
      var updated := sys.repo.UpdateJobStatus(id, seen, To(Cancelled), inp.fault);
      sys.Record(MoveCancel(s, x, inp));
      if updated.Ok? {
        return Some(CancelOk(updated.value));
      }
      return if updated.error == Conflict then None else Some(CancelFailed(updated.error));
    }

    // The test of cancellability, a step without a call.
    method GiveUp(x: nat, id: Uuid, ghost try: nat, ghost seen: JobStatus, plan: Plan, k: nat, ghost start: State)
      requires CancellerPlan(plan, x) && CameCancel(sys, start, plan, x, k)
      requires CancelAt(sys.View(), x, id, Trying(try, seen)) && !CanTransition(seen, Cancelled)
      modifies sys, sys.repo
      ensures CameCancel(sys, start, plan, x, k + 1) && CancelAnsweredBy(start, plan, x, k + 1)
      ensures CancelAt(sys.View(), x, id, CancelDone(NotCancellable))
    {
      var s := ReachCancel(x, plan, k, start);
      sys.Record(MoveCancel(s, x, plan.input(k)));
    }

    // One try: an answer unless the job has moved on.
    method TryOnce(x: nat, id: Uuid, try: nat, seen: JobStatus, plan: Plan, k: nat, ghost start: State)
      returns (answer: Option<CancelReply>)
      requires CancellerPlan(plan, x) && CameCancel(sys, start, plan, x, k)
      requires CancelAt(sys.View(), x, id, Trying(try, seen))
      modifies sys, sys.repo
      ensures CameCancel(sys, start, plan, x, k + 1) && CancelAnsweredBy(start, plan, x, k + 1)
      ensures CancelAt(sys.View(), x, id, if answer.Some? then CancelDone(answer.value) else CancelReloading(try))
      ensures TryAnswers(start, plan, x, id, k, seen, answer, sys.View())
    {
      CancellableExactly(seen);
      if !CanTransition(seen, Cancelled) {
        GiveUp(x, id, try, seen, plan, k, start);
        return Some(NotCancellable);
      }
      answer := TryCancel(x, id, try, seen, plan, k, start);
    }

    // The reload after a conflict: a failure, or the fresh status.
    method ReloadForCancel(x: nat, id: Uuid, ghost try: nat, plan: Plan, k: nat, ghost start: State)
      returns (failure: Option<CancelReply>, fresher: JobStatus)
      requires CancellerPlan(plan, x) && CameCancel(sys, start, plan, x, k)
      requires CancelAt(sys.View(), x, id, CancelReloading(try))
      modifies sys, sys.repo
      ensures CameCancel(sys, start, plan, x, k + 1) && CancelAnsweredBy(start, plan, x, k + 1)
      ensures CancelAt(sys.View(), x, id, AfterReload(try, failure, fresher))
      ensures match failure
              case Some(reply) => reply.CancelFailed? && HinderedAt(start, plan, x, id, k)
              case None => Seen(start, plan, x, id, k) == Some(fresher)
    {
      var job := LoadForCancel(x, id, CancelReloading(try), plan, k, start);
      if job.Fail? {
        return Some(CancelFailed(job.error)), Pending;
      }
      return None, job.value.status;
    }

    // One round of CancelJob's loop, from the request's k-th step on: an answer, or
    // the freshly loaded status after a conflict.
    method CancelRound(x: nat, id: Uuid, try: nat, seen: JobStatus, plan: Plan, k: nat, ghost start: State)
      returns (answer: Option<CancelReply>, fresher: JobStatus, ghost calls: nat)
      requires CancellerPlan(plan, x) && CameCancel(sys, start, plan, x, k)
      requires CancelAt(sys.View(), x, id, Trying(try, seen))
      modifies sys, sys.repo
      ensures CameCancel(sys, start, plan, x, calls) && CancelAnsweredBy(start, plan, x, calls)
      ensures CancelAt(sys.View(), x, id, AfterReload(try, answer, fresher))
      ensures RoundAnswers(start, plan, x, id, k, seen, answer, fresher, calls, sys.View())
    {
      answer := TryOnce(x, id, try, seen, plan, k, start);
      if answer.Some? {
        return answer, seen, k + 1;
      }
      answer, fresher := ReloadForCancel(x, id, try, plan, k + 1, start);
      calls := k + 2;
    }

    // A round of a request that saw the job at `first`.
    method CancelRoundOf(x: nat, id: Uuid, ghost first: JobStatus, try: nat, seen: JobStatus, plan: Plan,
                         ghost start: State)
      returns (answer: Option<CancelReply>, fresher: JobStatus, ghost calls: nat)
      requires CancellerPlan(plan, x) && CameCancel(sys, start, plan, x, 1 + 2 * try)
      requires CancelAt(sys.View(), x, id, Trying(try, seen))
      requires try < MAX_TRIES && TriesLeft(start, plan, x, id, first, try, seen)
      modifies sys, sys.repo
      ensures CameCancel(sys, start, plan, x, calls) && CancelAnsweredBy(start, plan, x, calls)
      ensures CancelAt(sys.View(), x, id, AfterReload(try, answer, fresher))
      ensures answer.Some? ==> LoopAnswers(start, plan, x, id, first, calls, answer.value, sys.View())
      ensures answer.None? ==> calls == 3 + 2 * try && TriesLeft(start, plan, x, id, first, try + 1, fresher)
    {
      answer, fresher, calls := CancelRound(x, id, try, seen, plan, 1 + 2 * try, start);
      RoundSettles(start, plan, x, id, first, try, seen, answer, fresher, calls, sys.View());
    }

    /** The loop of CancelJob: two guarded tries, each against freshly loaded state. It
        succeeds only if a try finds the job still at the cancellable status it was
        seen at, refuses only if neither does, and fails only for a fault of its own
        or a missing job. */
    method CancelLoop(x: nat, id: Uuid, first: JobStatus, plan: Plan, ghost start: State)
      returns (reply: CancelReply, ghost calls: nat)
      requires CancellerPlan(plan, x) && CameCancel(sys, start, plan, x, 1)
      requires CancelAt(sys.View(), x, id, Trying(0, first))
      modifies sys, sys.repo
      ensures CameCancel(sys, start, plan, x, calls) && CancelAnsweredBy(start, plan, x, calls)
      ensures CancelAt(sys.View(), x, id, CancelDone(reply))
      ensures LoopAnswers(start, plan, x, id, first, calls, reply, sys.View())
    {
      var seen := first;
      calls := 1;
      for try := 0 to MAX_TRIES
        invariant calls == 1 + 2 * try && CameCancel(sys, start, plan, x, calls)
        invariant try > 0 ==> CancelAnsweredBy(start, plan, x, calls)
        invariant CancelAt(sys.View(), x, id, if try < MAX_TRIES then Trying(try, seen) else CancelDone(NotCancellable))
        invariant TriesLeft(start, plan, x, id, first, try, seen)
      {
        var answer;
        answer, seen, calls := CancelRoundOf(x, id, first, try, seen, plan, start);
        if answer.Some? {
          return answer.value, calls;
        }
      }
      NoTriesLeft(start, plan, x, id, first, calls, seen, sys.View());
      reply := NotCancellable;
    }

    /** CancelJob. Whatever the others do meanwhile, the system makes exactly the
        request's steps and the reply is the protocol's for that run; success means
        that the job is CANCELLED and that no other cancel request of it has
        succeeded, and comes exactly if one of the two tries finds the job as it was
        seen. Undisturbed, every job that is not at an end is cancelled. */
    method CancelJob(x: nat, id: Uuid, plan: Plan) returns (reply: CancelReply, ghost calls: nat)
      requires Inv(sys.View()) && x !in sys.View().cancellers && CancellerPlan(plan, x)
      modifies sys, sys.repo
      ensures sys.View() == Run(old(sys.View()), [CancelArrives(x, id)] + CancelCalls(plan, x, calls))
      ensures CancelAnsweredBy(Next(old(sys.View()), CancelArrives(x, id)), plan, x, calls)
      ensures Inv(sys.View()) && CancelAt(sys.View(), x, id, CancelDone(reply))
      ensures reply.CancelOk? ==>
                && id in sys.View().tables.jobs && sys.View().tables.jobs[id].status == Cancelled
                && forall y | y in sys.View().cancellers && Succeeds(sys.View().cancellers[y]) ::
                     sys.View().cancellers[y].job == id ==> y == x
      ensures CancelAnswers(Next(old(sys.View()), CancelArrives(x, id)), plan, x, id, calls, reply, sys.View())
      ensures OwnCallsClean(plan) && id in old(sys.View()).tables.jobs ==> !reply.CancelFailed?
      ensures Undisturbed(plan) ==>
                && CancelDoes(old(sys.View()).tables, id, reply, sys.View().tables)
                && sys.View().published == old(sys.View()).published
    {
      ghost var s := sys.View();
      reply, calls := CancelFresh(x, id, plan);
      RunFirst(s, CancelArrives(x, id), CancelCalls(plan, x, calls));
      RunKeeps(s, [CancelArrives(x, id)] + CancelCalls(plan, x, calls));
      CancelOutcome(sys.View(), x, id, reply);
      if OwnCallsClean(plan) && id in s.tables.jobs {
        ArrivedUnhindered(s, plan, x, id, calls);
      }
    }

    method CancelFresh(x: nat, id: Uuid, plan: Plan) returns (reply: CancelReply, ghost calls: nat)
      requires x !in sys.View().cancellers && CancellerPlan(plan, x)
      modifies sys, sys.repo
      ensures var start := Next(old(sys.View()), CancelArrives(x, id));
              && CameCancel(sys, start, plan, x, calls) && CancelAnsweredBy(start, plan, x, calls)
              && CancelAnswers(start, plan, x, id, calls, reply, sys.View())
      ensures CancelAt(sys.View(), x, id, CancelDone(reply))
      ensures Undisturbed(plan) ==>
                && CancelDoes(old(sys.View()).tables, id, reply, sys.View().tables)
                && sys.View().published == old(sys.View()).published
    {
      var start := Next(sys.View(), CancelArrives(x, id));
      sys.Record(start);
      reply, calls := CancelLoaded(x, id, plan, start);
      if Undisturbed(plan) {
        CancelAloneDoes(start, plan, x, id, calls);
      }
    }

    method CancelLoaded(x: nat, id: Uuid, plan: Plan, ghost start: State) returns (reply: CancelReply, ghost calls: nat)
      requires CancellerPlan(plan, x) && CameCancel(sys, start, plan, x, 0) && CancelAt(sys.View(), x, id, Loading)
      modifies sys, sys.repo
      ensures CameCancel(sys, start, plan, x, calls) && CancelAnsweredBy(start, plan, x, calls)
      ensures CancelAt(sys.View(), x, id, CancelDone(reply))
      ensures CancelAnswers(start, plan, x, id, calls, reply, sys.View())
    {
      var job := LoadForCancel(x, id, Loading, plan, 0, start);
      if job.Fail? {
        return CancelFailed(job.error), 1;
      }
      reply, calls := CancelLoop(x, id, job.value.status, plan, start);
    }
  }

  lemma ArrivedUnhindered(s: State, plan: Plan, x: nat, id: Uuid, n: nat)
    requires Inv(s) && id in s.tables.jobs && OwnCallsClean(plan)
    ensures !Hindered(Next(s, CancelArrives(x, id)), plan, x, id, n)
  {
    StepKeeps(s, CancelArrives(x, id));
    NeverHindered(Next(s, CancelArrives(x, id)), plan, x, id, n);
  }

  lemma CancelOutcome(s: State, x: nat, id: Uuid, reply: CancelReply)
    requires CancellersOK(s) && CancelAt(s, x, id, CancelDone(reply))
    ensures reply.CancelOk? ==>
              && id in s.tables.jobs && s.tables.jobs[id].status == Cancelled
              && forall y | y in s.cancellers && Succeeds(s.cancellers[y]) :: s.cancellers[y].job == id ==> y == x
  {
  }
}
