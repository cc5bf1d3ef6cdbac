/**
 What requests are told and what they have done by then, said without the
 protocol's own cases: that an enqueued job is published, what an undisturbed
 create leaves behind, and when a cancel succeeds.
 */
module RequestAnswers {
  import opened GoTypes
  import opened Domain
  import opened RequestHash
  import opened Store
  import opened Protocol
  import opened ProtocolInvariant
  import opened ProtocolSteps
  import opened ProtocolPreservation
  import opened ProtocolTheorems
  import opened HandlerAnswers
  import opened Cluster

  // ------------------------------------------------------- an enqueued job has its message

  predicate Sent(s: State, j: Uuid) { Message(j, true) in s.published }

  // A request has enqueued the job and is about to publish it.
  ghost predicate Sending(s: State, j: Uuid) {
    exists r :: r in s.creators && ToPublish(s.creators[r]) && s.creators[r].phase.id == j
  }

  predicate Enqueued(status: JobStatus) { status != Pending && status != Cancelled }

  ghost predicate EnqueuedOK(s: State) {
    forall j :: j in s.tables.jobs && Enqueued(s.tables.jobs[j].status) ==> Sent(s, j) || Sending(s, j)
  }

  // No create request dies and none of its steps meets a fault; handlers and cancels may fail as they like.
  predicate CreatesCleanly(e: Event) { !e.CreateDies? && (e.CreateMoves? ==> e.inp.fault.Clean?) }

  lemma OthersEnqueueNothing(s: State, e: Event, j: Uuid)
    requires !e.CreateMoves? && j in Next(s, e).tables.jobs && Enqueued(Next(s, e).tables.jobs[j].status)
    ensures j in s.tables.jobs && Enqueued(s.tables.jobs[j].status)
  {
    if j in s.tables.jobs {
      EveryWriteHasItsAuthor(s, e, j);
    } else {
      OthersAddNoJob(s, e);
    }
  }

  lemma OthersAddNoJob(s: State, e: Event)
    requires !e.CreateMoves?
    ensures Next(s, e).tables.jobs.Keys == s.tables.jobs.Keys
  {
    if !Moves(s, e) {
      UnmovedTables(s, e);
    } else if e.WorkerMoves? {
      WorkerAddsNoJob(s.tables, s.workers[e.h], e.inp);
    } else {
      CancelEffect(s.tables, s.cancellers[e.x], e.inp);
    }
  }

  lemma OthersKeepEnqueued(s: State, e: Event)
    requires EnqueuedOK(s) && CreatesCleanly(e) && !e.CreateMoves?
    ensures EnqueuedOK(Next(s, e))
  {
    var s' := Next(s, e);
    forall j | j in s'.tables.jobs && Enqueued(s'.tables.jobs[j].status)
      ensures Sent(s', j) || Sending(s', j)
    {
      OthersEnqueueNothing(s, e, j);
      OthersLeaveMessages(s, e, j);
    }
  }

  lemma OthersLeaveMessages(s: State, e: Event, j: Uuid)
    requires CreatesCleanly(e) && !e.CreateMoves?
    ensures Sent(s, j) ==> Sent(Next(s, e), j)
    ensures Sending(s, j) ==> Sending(Next(s, e), j)
  {
    if Sending(s, j) {
      var r :| r in s.creators && ToPublish(s.creators[r]) && s.creators[r].phase.id == j;
      assert r in Next(s, e).creators && Next(s, e).creators[r] == s.creators[r];
    }
  }

  // A clean create step enqueues only what it goes on to publish, and publishes what it was about to.
  lemma CreateStepSends(t: Tables, c: Creator, inp: Input, j: Uuid)
    requires inp.fault.Clean?
    ensures var (t', sent, c') := CreateStep(t, c, inp);
            && (j in t'.jobs && Enqueued(t'.jobs[j].status) ==>
                  || (j in t.jobs && Enqueued(t.jobs[j].status))
                  || (ToPublish(c') && c'.phase.id == j))
            && (ToPublish(c) ==> sent == [Message(c.phase.id, true)])
  {
    CreateForm(t, c, inp);
    if c.phase.Inserting? {
      InsertForm(t, c.req.job, c.req.key, c.req.hash);
    }
  }

  lemma CreateKeepsEnqueued(s: State, r: nat, inp: Input)
    requires EnqueuedOK(s) && r in s.creators && inp.fault.Clean?
    ensures EnqueuedOK(MoveCreate(s, r, inp))
  {
    var s' := MoveCreate(s, r, inp);
    forall j | j in s'.tables.jobs && Enqueued(s'.tables.jobs[j].status)
      ensures Sent(s', j) || Sending(s', j)
    {
      CreateStepSends(s.tables, s.creators[r], inp, j);
      CreateLeavesMessages(s, r, inp, j);
      if !(j in s.tables.jobs && Enqueued(s.tables.jobs[j].status)) {
        assert ToPublish(s'.creators[r]) && s'.creators[r].phase.id == j;
      }
    }
  }

  lemma CreateLeavesMessages(s: State, r: nat, inp: Input, j: Uuid)
    requires r in s.creators && inp.fault.Clean?
    ensures var s' := MoveCreate(s, r, inp);
            Sent(s, j) || Sending(s, j) ==> Sent(s', j) || Sending(s', j)
  {
    var s' := MoveCreate(s, r, inp);
    CreateStepSends(s.tables, s.creators[r], inp, j);
    if Sending(s, j) {
      var q :| q in s.creators && ToPublish(s.creators[q]) && s.creators[q].phase.id == j;
      if q == r {
        assert s'.published == s.published + [Message(j, true)];
      } else {
        assert q in s'.creators && s'.creators[q] == s.creators[q];
      }
    }
  }

  lemma {:induction false} RunKeepsEnqueued(s: State, events: seq<Event>)
    requires EnqueuedOK(s) && forall i :: 0 <= i < |events| ==> CreatesCleanly(events[i])
    ensures EnqueuedOK(Run(s, events))
    decreases |events|
  {
    if events == [] {
    } else {
      assert CreatesCleanly(events[0]);
      if !events[0].CreateMoves? {
        OthersKeepEnqueued(s, events[0]);
      } else if events[0].r in s.creators {
        CreateKeepsEnqueued(s, events[0].r, events[0].inp);
      }
      RunKeepsEnqueued(Next(s, events[0]), events[1..]);
    }
  }

  predicate ApiMessageAt(s: State, j: Uuid, i: nat) { i < |s.published| && s.published[i] == Message(j, true) }

  /** Whatever handlers, cancels and deaths of theirs do: if no create request dies or
      meets a fault, every job that was enqueued and not cancelled has exactly one API
      message, unless a request is just about to publish it. And no job that was
      never enqueued has one. */
  lemma EnqueuedIsPublished(events: seq<Event>, j: Uuid)
    requires forall i :: 0 <= i < |events| ==> CreatesCleanly(events[i])
    requires j in Reached(events).tables.jobs
    ensures var s := Reached(events);
            && (Enqueued(s.tables.jobs[j].status) ==> Sent(s, j) || Sending(s, j))
            && (s.tables.jobs[j].status == Pending ==> !Sent(s, j))
            && (forall i, k :: ApiMessageAt(s, j, i) && ApiMessageAt(s, j, k) ==> i == k)
  {
    RunKeepsEnqueued(Initial(), events);
    ReachedOK(events);
    var s := Reached(events);
    forall i, k | ApiMessageAt(s, j, i) && ApiMessageAt(s, j, k)
      ensures i == k
    {
      ApiPublishesOnce(events, i, k);
    }
  }

  /** An accepted request, under any faults of anybody: its job is no longer PENDING,
      neither in the table nor in the reply, and it is told created=true exactly if
      the job is the one it brought itself. */
  lemma AcceptedIsEnqueued(events: seq<Event>, r: nat)
    requires r in Reached(events).creators
    requires var c := Reached(events).creators[r]; c.phase.Answered? && c.phase.reply.Accepted?
    ensures var s := Reached(events);
            var Accepted(id, row, created) := s.creators[r].phase.reply;
            && id in s.tables.jobs && s.tables.jobs[id].status != Pending && row.status != Pending
            && (created <==> id == s.creators[r].req.job.id)
  {
    ReachedOK(events);
    assert CreatorOK(Reached(events).tables, Reached(events).creators[r]);
  }

  predicate EnqueuingFailed(s: State, r: nat) {
    r in s.creators && s.creators[r].phase.Answered? && s.creators[r].phase.reply.EnqueueFailed?
  }

  lemma CleanStepsDoNotFail(t: Tables, c: Creator, inp: Input)
    requires CreatorOK(t, c) && inp.fault.Clean? && !(c.phase.Answered? && c.phase.reply.EnqueueFailed?)
    ensures var c' := CreateStep(t, c, inp).2; !(c'.phase.Answered? && c'.phase.reply.EnqueueFailed?)
  {
  }

  lemma CleanStepDoesNotFail(s: State, r: nat, inp: Input)
    requires CreatorsOK(s) && r in s.creators && inp.fault.Clean? && !EnqueuingFailed(s, r)
    ensures !EnqueuingFailed(MoveCreate(s, r, inp), r)
  {
    CleanStepsDoNotFail(s.tables, s.creators[r], inp);
  }

  lemma CreateMetKeeps(start: State, plan: Plan, r: nat, n: nat)
    requires Inv(start)
    ensures CreatorsOK(Run(Run(start, CreateCalls(plan, r, n)), plan.before(n)))
  {
    RunAppend(start, CreateCalls(plan, r, n), plan.before(n));
    RunKeeps(start, CreateCalls(plan, r, n) + plan.before(n));
  }

  lemma CleanCallDoesNotFail(start: State, plan: Plan, r: nat, n: nat)
    requires Inv(start) && CreatorPlan(plan, r) && plan.input(n).fault.Clean?
    requires var s := Run(start, CreateCalls(plan, r, n)); r in s.creators && !EnqueuingFailed(s, r)
    ensures var s := Run(start, CreateCalls(plan, r, n + 1)); r in s.creators && !EnqueuingFailed(s, r)
  {
    var s := Run(start, CreateCalls(plan, r, n));
    CreatorSpared(s, plan.before(n), r);
    CreateMetKeeps(start, plan, r, n);
    OneMoreCall(start, CreateCalls(plan, r, n), plan.before(n), CreateMoves(r, plan.input(n)));
    CleanStepDoesNotFail(Run(s, plan.before(n)), r, plan.input(n));
  }

  /** Whatever the others do, a request whose own calls meet no fault is not told that
      enqueuing failed: a conflict with a concurrent duplicate is no failure. */
  lemma {:induction false} CleanCreatesDoNotFail(start: State, plan: Plan, r: nat, n: nat)
    requires Inv(start) && CreatorPlan(plan, r) && OwnCallsClean(plan)
    requires r in start.creators && !EnqueuingFailed(start, r)
    ensures var s := Run(start, CreateCalls(plan, r, n)); r in s.creators && !EnqueuingFailed(s, r)
  {
    if n == 0 {
    } else {
      CleanCreatesDoNotFail(start, plan, r, n - 1);
      CleanCallDoesNotFail(start, plan, r, n - 1);
    }
  }

  // ------------------------------------------------------------------ an undisturbed create

  function CreateAtCall(start: State, plan: Plan, r: nat, n: nat): State { Run(start, CreateCalls(plan, r, n)) }

  predicate Replied(s: State, r: nat) { r in s.creators && s.creators[r].phase.Answered? }

  // The request was answered with its n-th step and not before.
  ghost predicate CreateAnsweredBy(start: State, plan: Plan, r: nat, n: nat) {
    n >= 1 && r in CreateAtCall(start, plan, r, n - 1).creators && !Replied(CreateAtCall(start, plan, r, n - 1), r)
  }

  lemma CreateAlone(start: State, plan: Plan, r: nat, n: nat)
    requires Undisturbed(plan) && r in CreateAtCall(start, plan, r, n).creators
    ensures CreateAtCall(start, plan, r, n + 1) == MoveCreate(CreateAtCall(start, plan, r, n), r, plan.input(n))
  {
    assert plan.before(n) == [];
    OneMoreCall(start, CreateCalls(plan, r, n), plan.before(n), CreateMoves(r, plan.input(n)));
  }

  lemma {:induction false} ReplyStays(start: State, plan: Plan, r: nat, k: nat, n: nat)
    requires Undisturbed(plan) && k <= n && Replied(CreateAtCall(start, plan, r, k), r)
    ensures Replied(CreateAtCall(start, plan, r, n), r)
    decreases n
  {
    if k == n {
    } else {
      ReplyStays(start, plan, r, k, n - 1);
      CreateAlone(start, plan, r, n - 1);
    }
  }

  // A request that is answered after k steps and not before was answered by its k-th.
  lemma AnsweredThere(start: State, plan: Plan, r: nat, k: nat, n: nat)
    requires Undisturbed(plan) && CreateAnsweredBy(start, plan, r, n) && Replied(CreateAtCall(start, plan, r, n), r)
    requires CreateAnsweredBy(start, plan, r, k) && Replied(CreateAtCall(start, plan, r, k), r)
    ensures k == n
  {
    if k < n {
      ReplyStays(start, plan, r, k, n - 1);
    } else if n < k {
      ReplyStays(start, plan, r, n, k - 1);
    }
  }

  // The tables, the messages and the phase of request r.
  predicate CreateStands(s: State, r: nat, t: Tables, published: seq<Message>, c: Creator) {
    s.tables == t && s.published == published && r in s.creators && s.creators[r] == c
  }

  lemma CreateGoesOn(start: State, plan: Plan, r: nat, n: nat, t: Tables, m: seq<Message>, c: Creator)
    requires Undisturbed(plan) && CreateStands(CreateAtCall(start, plan, r, n), r, t, m, c)
    ensures var (t', sent, c') := CreateStep(t, c, plan.input(n));
            CreateStands(CreateAtCall(start, plan, r, n + 1), r, t', m + sent, c')
    ensures !c.phase.Answered? ==> CreateAnsweredBy(start, plan, r, n + 1)
  {
    CreateAlone(start, plan, r, n);
  }

  // The row as a client sees it after a create.
  function CreatedRow(p: NewJob): JobRow { JobRow(Queued, p.spec, p.correlation, 0, p.maxAttempts, None, None) }

  function EnqueuedTables(t: Tables, j: Uuid): Tables
    requires j in t.jobs
  {
    t.(jobs := t.jobs[j := t.jobs[j].(status := Queued)])
  }

  /** What a create request without faults and without company does. A request
      without a key, or with one not used before, commits its row, enqueues it,
      publishes it and is told so. One with a used key is told about the bound job if
      that asks for the same thing, which is enqueued and published if that had not
      happened; otherwise it is refused and nothing changes. */
  ghost predicate CreateDoes(t: Tables, published: seq<Message>, p: NewJob, key: GoString,
                             reply: CreateReply, t': Tables, published': seq<Message>)
  {
    if key == [] || key !in t.keys then
      && reply == Accepted(p.id, CreatedRow(p), true)
      && published' == published + [Message(p.id, true)]
      && t' == t.(jobs := t.jobs[p.id := CreatedRow(p)],
                  keys := if key == [] then t.keys else t.keys[key := KeyRow(p.id, HashOf(p.spec))])
    else
      var j := t.keys[key].job;
      && j in t.jobs
      && if t.jobs[j].spec != p.spec then
           reply == Rejected(IdempotencyConflict) && t' == t && published' == published
         else if t.jobs[j].status == Pending then
           && reply == Accepted(j, t.jobs[j].(status := Queued), false)
           && t' == EnqueuedTables(t, j) && published' == published + [Message(j, true)]
         else
           reply == Accepted(j, t.jobs[j], false) && t' == t && published' == published
  }

  lemma EnqueueAlone(start: State, plan: Plan, r: nat, n: nat, t: Tables, m: seq<Message>, req: Request, j: Uuid,
                     row: JobRow, created: bool)
    requires Undisturbed(plan) && j in t.jobs && t.jobs[j].status == Pending
    requires CreateStands(CreateAtCall(start, plan, r, n), r, t, m, Creator(req, Enqueuing(j, row, created)))
    ensures CreateAnsweredBy(start, plan, r, n + 2)
    ensures CreateStands(CreateAtCall(start, plan, r, n + 2), r, EnqueuedTables(t, j), m + [Message(j, true)],
                         Creator(req, Answered(Accepted(j, t.jobs[j].(status := Queued), created))))
  {
    var c := Creator(req, Enqueuing(j, row, created));
    CreateGoesOn(start, plan, r, n, t, m, c);
    var queued := t.jobs[j].(status := Queued);
    var c1 := Creator(req, Publishing(j, queued, created));
    assert plan.input(n).fault.Clean? && plan.input(n + 1).fault.Clean?;
    EnqueueStep(t, c, plan.input(n));
    assert m + [] == m;
    CreateGoesOn(start, plan, r, n + 1, EnqueuedTables(t, j), m, c1);
  }

  lemma EnqueueStep(t: Tables, c: Creator, inp: Input)
    requires c.phase.Enqueuing? && c.phase.id in t.jobs && t.jobs[c.phase.id].status == Pending && inp.fault.Clean?
    ensures var j := c.phase.id;
            CreateStep(t, c, inp)
            == (EnqueuedTables(t, j), [], c.(phase := Publishing(j, t.jobs[j].(status := Queued), c.phase.created)))
  {
  }

  // The ways the insert can go, each with what follows.
  lemma FreshAlone(start: State, plan: Plan, r: nat, p: NewJob, key: GoString)
    requires Undisturbed(plan) && p.id !in start.tables.jobs && p.maxAttempts >= 1
    requires key == [] || key !in start.tables.keys
    requires CreateStands(start, r, start.tables, start.published, Creator(Request(p, key, HashOf(p.spec)), Inserting))
    ensures CreateAnsweredBy(start, plan, r, 3)
    ensures var s := CreateAtCall(start, plan, r, 3);
            && Replied(s, r)
            && var t := start.tables;
               && s.creators[r].phase.reply == Accepted(p.id, CreatedRow(p), true)
               && s.published == start.published + [Message(p.id, true)]
               && s.tables == t.(jobs := t.jobs[p.id := CreatedRow(p)],
                                 keys := if key == [] then t.keys else t.keys[key := KeyRow(p.id, HashOf(p.spec))])
  {
    var t, m, req := start.tables, start.published, Request(p, key, HashOf(p.spec));
    assert plan.input(0).fault.Clean?;
    CreateGoesOn(start, plan, r, 0, t, m, Creator(req, Inserting));
    var t1 := InsertTx(t, p, key, req.hash).0;
    assert m + [] == m;
    assert t1.jobs == t.jobs[p.id := FreshRow(p)];
    EnqueueAlone(start, plan, r, 1, t1, m, req, p.id, FreshRow(p), true);
    assert t.jobs[p.id := FreshRow(p)][p.id := CreatedRow(p)] == t.jobs[p.id := CreatedRow(p)];
  }

  // The key is taken: the row is rolled back and the key looked up.
  lemma TakenAlone(start: State, plan: Plan, r: nat, p: NewJob, key: GoString)
    requires Undisturbed(plan) && p.id !in start.tables.jobs && p.maxAttempts >= 1
    requires key != [] && key in start.tables.keys
    requires CreateStands(start, r, start.tables, start.published, Creator(Request(p, key, HashOf(p.spec)), Inserting))
    ensures var req := Request(p, key, HashOf(p.spec));
            CreateStands(CreateAtCall(start, plan, r, 1), r, start.tables, start.published, Creator(req, ResolvingKey))
  {
    assert plan.input(0).fault.Clean?;
    CreateGoesOn(start, plan, r, 0, start.tables, start.published, Creator(Request(p, key, HashOf(p.spec)), Inserting));
    assert start.published + [] == start.published;
  }

  lemma ReplayAlone(start: State, plan: Plan, r: nat, p: NewJob, key: GoString)
    requires Undisturbed(plan) && key in start.tables.keys && start.tables.keys[key].job in start.tables.jobs
    requires var k := start.tables.keys[key];
             start.tables.jobs[k.job].spec == p.spec <==> k.hash == HashOf(p.spec)
    requires var req := Request(p, key, HashOf(p.spec));
             CreateStands(CreateAtCall(start, plan, r, 1), r, start.tables, start.published, Creator(req, ResolvingKey))
    requires key != []
    ensures exists n ::
              && CreateAnsweredBy(start, plan, r, n) && Replied(CreateAtCall(start, plan, r, n), r)
              && var s := CreateAtCall(start, plan, r, n);
                 CreateDoes(start.tables, start.published, p, key, s.creators[r].phase.reply, s.tables, s.published)
  {
    var t, m, req := start.tables, start.published, Request(p, key, HashOf(p.spec));
    var j := t.keys[key].job;
    assert plan.input(1).fault.Clean? && plan.input(2).fault.Clean?;
    assert m + [] == m;
    CreateGoesOn(start, plan, r, 1, t, m, Creator(req, ResolvingKey));
    if t.jobs[j].spec != p.spec {
      assert CreateStands(CreateAtCall(start, plan, r, 2), r, t, m,
                          Creator(req, Answered(Rejected(IdempotencyConflict))));
    } else {
      CreateGoesOn(start, plan, r, 2, t, m, Creator(req, ReadingJob(j)));
      if t.jobs[j].status == Pending {
        EnqueueAlone(start, plan, r, 3, t, m, req, j, t.jobs[j], false);
      } else {
        assert CreateStands(CreateAtCall(start, plan, r, 3), r, t, m,
                            Creator(req, Answered(Accepted(j, t.jobs[j], false))));
      }
    }
  }

  // The key table's fingerprints are those of the bound jobs.
  lemma FingerprintsDecide(s: State, key: GoString, spec: JobSpec)
    requires OriginOK(s) && HashesOK(s) && KeysOK(s.tables) && key in s.tables.keys
    ensures var k := s.tables.keys[key];
            && key != [] && k.job in s.tables.jobs
            && (s.tables.jobs[k.job].spec == spec <==> k.hash == HashOf(spec))
  {
    var k := s.tables.keys[key];
    assert s.origin[k.job] == Origin(key, k.hash);
    if k.hash == HashOf(spec) {
      HashInjective(s.tables.jobs[k.job].spec, spec);
    }
  }

  /** The reply and the effects of a create request that nobody disturbs. */
  lemma CreateAloneDoes(start: State, plan: Plan, r: nat, p: NewJob, key: GoString, n: nat)
    requires OriginOK(start) && HashesOK(start) && KeysOK(start.tables) && Undisturbed(plan)
    requires p.id !in start.tables.jobs && p.maxAttempts >= 1
    requires CreateStands(start, r, start.tables, start.published, Creator(Request(p, key, HashOf(p.spec)), Inserting))
    requires CreateAnsweredBy(start, plan, r, n) && Replied(CreateAtCall(start, plan, r, n), r)
    ensures var s := CreateAtCall(start, plan, r, n);
            CreateDoes(start.tables, start.published, p, key, s.creators[r].phase.reply, s.tables, s.published)
  {
    if key == [] || key !in start.tables.keys {
      FreshAlone(start, plan, r, p, key);
      AnsweredThere(start, plan, r, 3, n);
    } else {
      FingerprintsDecide(start, key, p.spec);
      TakenAlone(start, plan, r, p, key);
      ReplayAlone(start, plan, r, p, key);
      var k :| CreateAnsweredBy(start, plan, r, k) && Replied(CreateAtCall(start, plan, r, k), r)
               && var s := CreateAtCall(start, plan, r, k);
                  CreateDoes(start.tables, start.published, p, key, s.creators[r].phase.reply, s.tables, s.published);
      AnsweredThere(start, plan, r, k, n);
    }
  }

  // ----------------------------------------------------------------------- cancelling

  // The state that the request's n-th step meets.
  function CancelMet(start: State, plan: Plan, x: nat, n: nat): State {
    Run(Run(start, CancelCalls(plan, x, n)), plan.before(n))
  }

  // The status of the job then.
  function Seen(start: State, plan: Plan, x: nat, id: Uuid, n: nat): Option<JobStatus> {
    var jobs := CancelMet(start, plan, x, n).tables.jobs;
    if id in jobs then Some(jobs[id].status) else None
  }

  predicate Cancellable(status: JobStatus) { status in {Pending, Queued, JobStatus.Processing, Retrying} }

  // The column of the table that cancels need: everything but the statuses at an end.
  lemma CancellableExactly(status: JobStatus)
    ensures CanTransition(status, Cancelled) <==> Cancellable(status)
    ensures Cancellable(status) <==> !AtEnd(status)
  {
  }

  /** Two tries, each against a status that was seen: one of them finds a cancellable
      job at the status it was seen at, the second only after the first found it at
      another. `first` is what was seen at the start. */
  predicate TrySucceeds(start: State, plan: Plan, x: nat, id: Uuid, first: JobStatus) {
    Cancellable(first) &&
    (Seen(start, plan, x, id, 1) == Some(first)
     || (var second := Seen(start, plan, x, id, 2);
         second.Some? && Cancellable(second.value) && Seen(start, plan, x, id, 3) == second))
  }

  // Something kept the request from an answer: a fault of its own, or no such job.
  predicate HinderedAt(start: State, plan: Plan, x: nat, id: Uuid, k: nat) {
    !plan.input(k).fault.Clean? || Seen(start, plan, x, id, k).None?
  }

  ghost predicate Hindered(start: State, plan: Plan, x: nat, id: Uuid, n: nat) {
    exists k: nat :: k < n && HinderedAt(start, plan, x, id, k)
  }

  /** The effect of a successful cancel: the step it succeeded with changed this one
      status and nothing else. */
  predicate CancelTookEffect(met: State, id: Uuid, row: JobRow, after: State) {
    && id in met.tables.jobs && row == met.tables.jobs[id].(status := Cancelled)
    && after.tables == met.tables.(jobs := met.tables.jobs[id := row])
    && after.published == met.published
  }

  function CancelAtCall(start: State, plan: Plan, x: nat, n: nat): State { Run(start, CancelCalls(plan, x, n)) }

  predicate CancelReplied(s: State, x: nat) { x in s.cancellers && s.cancellers[x].phase.CancelDone? }

  // The request was answered with its n-th step and not before.
  ghost predicate CancelAnsweredBy(start: State, plan: Plan, x: nat, n: nat) {
    && n >= 1
    && x in CancelAtCall(start, plan, x, n - 1).cancellers
    && !CancelReplied(CancelAtCall(start, plan, x, n - 1), x)
  }

  lemma CancelAlone(start: State, plan: Plan, x: nat, n: nat)
    requires Undisturbed(plan) && x in CancelAtCall(start, plan, x, n).cancellers
    ensures CancelAtCall(start, plan, x, n + 1) == MoveCancel(CancelAtCall(start, plan, x, n), x, plan.input(n))
  {
    assert plan.before(n) == [];
    OneMoreCall(start, CancelCalls(plan, x, n), plan.before(n), CancelMoves(x, plan.input(n)));
  }

  lemma {:induction false} CancelReplyStays(start: State, plan: Plan, x: nat, k: nat, n: nat)
    requires Undisturbed(plan) && k <= n && CancelReplied(CancelAtCall(start, plan, x, k), x)
    ensures CancelReplied(CancelAtCall(start, plan, x, n), x)
    decreases n
  {
    if k == n {
    } else {
      CancelReplyStays(start, plan, x, k, n - 1);
      CancelAlone(start, plan, x, n - 1);
    }
  }

  lemma CancelAnsweredThere(start: State, plan: Plan, x: nat, k: nat, n: nat)
    requires Undisturbed(plan)
    requires CancelAnsweredBy(start, plan, x, n) && CancelReplied(CancelAtCall(start, plan, x, n), x)
    requires CancelAnsweredBy(start, plan, x, k) && CancelReplied(CancelAtCall(start, plan, x, k), x)
    ensures k == n
  {
    if k < n {
      CancelReplyStays(start, plan, x, k, n - 1);
    } else if n < k {
      CancelReplyStays(start, plan, x, n, k - 1);
    }
  }

  predicate CancelStands(s: State, x: nat, t: Tables, published: seq<Message>, c: Canceller) {
    s.tables == t && s.published == published && x in s.cancellers && s.cancellers[x] == c
  }

  lemma CancelGoesOn(start: State, plan: Plan, x: nat, n: nat, t: Tables, m: seq<Message>, c: Canceller)
    requires Undisturbed(plan) && CancelStands(CancelAtCall(start, plan, x, n), x, t, m, c)
    ensures var (t', c') := CancelStep(t, c, plan.input(n));
            CancelStands(CancelAtCall(start, plan, x, n + 1), x, t', m, c')
    ensures !c.phase.CancelDone? ==> CancelAnsweredBy(start, plan, x, n + 1)
  {
    CancelAlone(start, plan, x, n);
  }

  /** What a cancel request without faults and without company does: it cancels a job
      at PENDING, QUEUED, PROCESSING or RETRYING, refuses one at COMPLETED, CANCELLED
      or FAILED, and finds no other. */
  predicate CancelDoes(t: Tables, id: Uuid, reply: CancelReply, t': Tables) {
    if id !in t.jobs then reply == CancelFailed(NotFound) && t' == t
    else if t.jobs[id].status in {Completed, Cancelled, Failed} then reply == NotCancellable && t' == t
    else
      var row := t.jobs[id].(status := Cancelled);
      reply == CancelOk(row) && t' == t.(jobs := t.jobs[id := row])
  }

  lemma CancelAloneDoes(start: State, plan: Plan, x: nat, id: Uuid, n: nat)
    requires Undisturbed(plan) && CancelStands(start, x, start.tables, start.published, Canceller(id, Loading))
    requires CancelAnsweredBy(start, plan, x, n) && CancelReplied(CancelAtCall(start, plan, x, n), x)
    ensures var s := CancelAtCall(start, plan, x, n);
            CancelDoes(start.tables, id, s.cancellers[x].phase.reply, s.tables) && s.published == start.published
  {
    var t, m := start.tables, start.published;
    assert plan.input(0).fault.Clean? && plan.input(1).fault.Clean?;
    CancelGoesOn(start, plan, x, 0, t, m, Canceller(id, Loading));
    if id !in t.jobs {
      CancelAnsweredThere(start, plan, x, 1, n);
    } else {
      CancellableExactly(t.jobs[id].status);
      CancelGoesOn(start, plan, x, 1, t, m, Canceller(id, Trying(0, t.jobs[id].status)));
      CancelAnsweredThere(start, plan, x, 2, n);
    }
  }

  // What one try, the request's k-th step, says about the job last seen at `seen`.
  predicate TryAnswers(start: State, plan: Plan, x: nat, id: Uuid, k: nat, seen: JobStatus, answer: Option<CancelReply>,
                       after: State)
  {
    match answer
    case Some(CancelOk(row)) =>
      && Cancellable(seen) && Seen(start, plan, x, id, k) == Some(seen)
      && CancelTookEffect(CancelMet(start, plan, x, k), id, row, after)
    case Some(NotCancellable) => !Cancellable(seen)
    case Some(CancelFailed(_)) => HinderedAt(start, plan, x, id, k)
    case None => Cancellable(seen) && Seen(start, plan, x, id, k) != Some(seen)
  }

  // And the round it opens, up to what the reload shows.
  ghost predicate RoundAnswers(start: State, plan: Plan, x: nat, id: Uuid, k: nat, seen: JobStatus,
                               answer: Option<CancelReply>, fresher: JobStatus, calls: nat, after: State)
  {
    match answer
    case Some(CancelOk(_)) => calls == k + 1 && TryAnswers(start, plan, x, id, k, seen, answer, after)
    case Some(NotCancellable) => !Cancellable(seen)
    case Some(CancelFailed(_)) => Hindered(start, plan, x, id, calls)
    case None =>
      && calls == k + 2
      && Cancellable(seen) && Seen(start, plan, x, id, k) != Some(seen)
      && Seen(start, plan, x, id, k + 1) == Some(fresher)
  }

  // What is known before the try with this number: why there is one.
  predicate TriesLeft(start: State, plan: Plan, x: nat, id: Uuid, first: JobStatus, try: nat, seen: JobStatus) {
    && (try == 0 ==> seen == first)
    && (try >= 1 ==> Cancellable(first) && Seen(start, plan, x, id, 1) != Some(first))
    && (try == 1 ==> Seen(start, plan, x, id, 2) == Some(seen))
    && (try >= 2 ==>
          var second := Seen(start, plan, x, id, 2);
          second.Some? && Seen(start, plan, x, id, 3) != second)
  }

  // What an answer means to a request that saw the job at `first`.
  ghost predicate LoopAnswers(start: State, plan: Plan, x: nat, id: Uuid, first: JobStatus, calls: nat,
                              reply: CancelReply, after: State)
  {
    match reply
    case CancelOk(row) =>
      && TrySucceeds(start, plan, x, id, first)
      && calls >= 1 && CancelTookEffect(CancelMet(start, plan, x, calls - 1), id, row, after)
    case NotCancellable => !TrySucceeds(start, plan, x, id, first)
    case CancelFailed(_) => Hindered(start, plan, x, id, calls)
  }

  lemma RoundSettles(start: State, plan: Plan, x: nat, id: Uuid, first: JobStatus, try: nat, seen: JobStatus,
                     answer: Option<CancelReply>, fresher: JobStatus, calls: nat, after: State)
    requires TriesLeft(start, plan, x, id, first, try, seen) && try < MAX_TRIES
    requires RoundAnswers(start, plan, x, id, 1 + 2 * try, seen, answer, fresher, calls, after)
    ensures match answer
            case Some(reply) => LoopAnswers(start, plan, x, id, first, calls, reply, after)
            case None => TriesLeft(start, plan, x, id, first, try + 1, fresher)
  {
  }

  lemma NoTriesLeft(start: State, plan: Plan, x: nat, id: Uuid, first: JobStatus, calls: nat, seen: JobStatus,
                    after: State)
    requires TriesLeft(start, plan, x, id, first, MAX_TRIES, seen)
    ensures LoopAnswers(start, plan, x, id, first, calls, NotCancellable, after)
  {
  }

  /** What each answer of a cancel request means, whatever the others do and whatever
      faults there are. Without faults and with the job in the table the first two are
      the only answers, so that each is given exactly on its condition. */
  ghost predicate CancelAnswers(start: State, plan: Plan, x: nat, id: Uuid, calls: nat, reply: CancelReply,
                                after: State)
  {
    var first := Seen(start, plan, x, id, 0);
    if reply.CancelFailed? then Hindered(start, plan, x, id, calls)
    else first.Some? && LoopAnswers(start, plan, x, id, first.value, calls, reply, after)
  }

  // A clean request for a job that is there always gets one of the other two answers.
  lemma NeverHindered(s: State, plan: Plan, x: nat, id: Uuid, n: nat)
    requires Inv(s) && id in s.tables.jobs && OwnCallsClean(plan)
    ensures !Hindered(s, plan, x, id, n)
  {
    forall k: nat | k < n
      ensures !HinderedAt(s, plan, x, id, k)
    {
      JobIsSeen(s, plan, x, id, k);
    }
  }

  lemma JobIsSeen(s: State, plan: Plan, x: nat, id: Uuid, k: nat)
    requires Inv(s) && id in s.tables.jobs
    ensures Seen(s, plan, x, id, k).Some?
  {
    RunAppend(s, CancelCalls(plan, x, k), plan.before(k));
    RunFollows(s, CancelCalls(plan, x, k) + plan.before(k));
  }
}
