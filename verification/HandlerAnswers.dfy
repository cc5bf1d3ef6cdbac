/**
 What a handler answers and what it has done by then, said without the
 protocol's own cases: for any schedule of the others, when it claims, what an
 answer without a claim means, and what a claimed job has become when the
 handler's own calls meet no fault.
 */
module HandlerAnswers {
  import opened GoTypes
  import opened Errors
  import opened Domain
  import opened ObjectKeys
  import opened Store
  import opened Protocol
  import opened ProtocolInvariant
  import opened ProtocolSteps
  import opened ProtocolPreservation
  import opened ProtocolTheorems
  import opened Cluster
  import Backoff

  // No store call of the actor itself meets a fault; the others do as they please.
  ghost predicate OwnCallsClean(plan: Plan) { forall k: nat :: plan.input(k).fault.Clean? }

  // Nor does anybody else move.
  ghost predicate Undisturbed(plan: Plan) { OwnCallsClean(plan) && forall k: nat :: plan.before(k) == [] }

  // ------------------------------------------------------------------ a handler's calls

  // The state that the handler's n-th call meets.
  function HandlerMet(start: State, plan: Plan, h: nat, n: nat): State {
    Run(Run(start, WorkerCalls(plan, h, n)), plan.before(n))
  }

  function HandlerAt(start: State, plan: Plan, h: nat, n: nat): State { Run(start, WorkerCalls(plan, h, n)) }

  // A delivery of job `id` that handler h has just taken up.
  ghost predicate TakesUp(start: State, plan: Plan, h: nat, id: Uuid) {
    h in start.workers && start.workers[h] == Worker(id, Delivered, true) && WorkerPlan(plan, h)
  }

  // The handler answered with its n-th call and not before.
  ghost predicate AnsweredBy(start: State, plan: Plan, h: nat, n: nat) {
    && n >= 1
    && var s := HandlerAt(start, plan, h, n - 1);
       h in s.workers && !s.workers[h].phase.Done?
  }

  lemma HandlerCall(start: State, plan: Plan, h: nat, n: nat)
    requires WorkerPlan(plan, h) && h in HandlerAt(start, plan, h, n).workers
    ensures var s, met := HandlerAt(start, plan, h, n), HandlerMet(start, plan, h, n);
            && h in met.workers && met.workers[h] == s.workers[h]
            && HandlerAt(start, plan, h, n + 1) == MoveWorker(met, h, plan.input(n))
  {
    WorkerSpared(HandlerAt(start, plan, h, n), plan.before(n), h);
    OneMoreCall(start, WorkerCalls(plan, h, n), plan.before(n), WorkerMoves(h, plan.input(n)));
  }

  // The handler stays with its job.
  lemma {:induction false} HandlerStays(start: State, plan: Plan, h: nat, id: Uuid, n: nat)
    requires TakesUp(start, plan, h, id)
    ensures var s := HandlerAt(start, plan, h, n);
            h in s.workers && s.workers[h].job == id && !s.workers[h].phase.Gone?
    ensures var s := HandlerMet(start, plan, h, n);
            h in s.workers && s.workers[h] == HandlerAt(start, plan, h, n).workers[h]
  {
    if n == 0 {
    } else {
      HandlerStays(start, plan, h, id, n - 1);
      HandlerCall(start, plan, h, n - 1);
      var met := HandlerMet(start, plan, h, n - 1);
      WorkerKeepsJob(met.tables, met.workers[h], plan.input(n - 1));
      NobodyVanishes(met.tables, met.workers[h], plan.input(n - 1));
    }
    HandlerCall(start, plan, h, n);
  }

  lemma NobodyVanishes(t: Tables, w: Worker, inp: Input)
    requires !w.phase.Gone?
    ensures !WorkerStep(t, w, inp).1.phase.Gone?
  {
  }

  // What the n-th call meets is reached from the start.
  lemma MetKeeps(start: State, plan: Plan, h: nat, n: nat)
    requires Inv(start)
    ensures Inv(HandlerMet(start, plan, h, n)) && Follows(start.tables, HandlerMet(start, plan, h, n).tables)
  {
    RunAppend(start, WorkerCalls(plan, h, n), plan.before(n));
    RunFollows(start, WorkerCalls(plan, h, n) + plan.before(n));
  }

  lemma AtKeeps(start: State, plan: Plan, h: nat, n: nat)
    requires Inv(start)
    ensures Inv(HandlerAt(start, plan, h, n))
    ensures Follows(HandlerAt(start, plan, h, n).tables, HandlerMet(start, plan, h, n).tables)
  {
    RunKeeps(start, WorkerCalls(plan, h, n));
    RunFollows(HandlerAt(start, plan, h, n), plan.before(n));
  }

  // The little of it that the answers need.
  lemma MetTables(start: State, plan: Plan, h: nat, id: Uuid, n: nat)
    requires Inv(start)
    ensures IndexOK(HandlerMet(start, plan, h, n).tables)
    ensures id in start.tables.jobs || id in HandlerAt(start, plan, h, n).tables.jobs ==>
              id in HandlerMet(start, plan, h, n).tables.jobs
  {
    MetKeeps(start, plan, h, n);
    AtKeeps(start, plan, h, n);
  }

  // An answer is final.
  lemma {:induction false} AnswerStays(start: State, plan: Plan, h: nat, id: Uuid, k: nat, n: nat)
    requires TakesUp(start, plan, h, id) && k <= n
    requires h in HandlerAt(start, plan, h, k).workers && HandlerAt(start, plan, h, k).workers[h].phase.Done?
    ensures var s := HandlerAt(start, plan, h, n);
            h in s.workers && s.workers[h] == HandlerAt(start, plan, h, k).workers[h]
    decreases n
  {
    if k == n {
    } else {
      AnswerStays(start, plan, h, id, k, n - 1);
      HandlerCall(start, plan, h, n - 1);
    }
  }

  // --------------------------------------------------------------- handlers that never claim

  predicate AtEnd(status: JobStatus) { status in {Completed, Cancelled, Failed} }

  lemma LoadAnswers(t: Tables, w: Worker, inp: Input)
    requires w.phase.Delivered?
    ensures var (t', w') := WorkerStep(t, w, inp);
            && t' == t && (w'.phase.Loaded? || w'.phase.Done?)
            && (w'.phase.Loaded? <==> inp.fault.Clean? && w.job in t.jobs && !AtEnd(t.jobs[w.job].status))
            && (w'.phase == Done(Discard, false) <==> inp.fault.Clean? && w.job !in t.jobs)
            && (w'.phase == Done(Complete, false) <==>
                  inp.fault.Clean? && w.job in t.jobs && AtEnd(t.jobs[w.job].status))
            && (w'.phase == Done(Retry(0), false) <==> !inp.fault.Clean?)
  {
  }

  lemma ClaimAnswers(t: Tables, w: Worker, inp: Input)
    requires w.phase.Loaded? && IndexOK(t) && w.job in t.jobs
    ensures var (t', w') := WorkerStep(t, w, inp);
            && (w'.phase.Owning? || w'.phase == Done(Complete, false) || w'.phase == Done(Retry(0), false))
            && (w'.phase.Owning? <==>
                  inp.fault.Clean? && t.jobs[w.job].status == Queued && inp.attemptId !in t.attempts)
            && (w'.phase == Done(Complete, false) <==> inp.fault.Clean? && t.jobs[w.job].status != Queued)
            && (w'.phase == Done(Complete, false) ==> t' == t)
  {
    if t.jobs[w.job].status == Queued && inp.attemptId !in t.attempts {
      ClaimForm(t, w.job, inp.attemptId);
    }
  }

  lemma OwnerAnswers(t: Tables, w: Worker, inp: Input)
    requires w.phase.Owning?
    ensures var p := WorkerStep(t, w, inp).1.phase;
            p.Owning? || (p.Done? && p.owned && p.decision != Discard)
  {
  }

  // How far a handler is that has not answered yet.
  predicate PhaseAfter(n: nat, p: Phase) {
    if n == 0 then p.Delivered? else if n == 1 then p.Loaded? else p.Owning?
  }

  lemma StepProgress(t: Tables, w: Worker, inp: Input, n: nat)
    requires IndexOK(t) && PhaseAfter(n, w.phase) && (n >= 1 ==> w.job in t.jobs)
    ensures var (t', w') := WorkerStep(t, w, inp);
            w'.phase.Done? || (PhaseAfter(n + 1, w'.phase) && w.job in t'.jobs)
  {
    WorkerAddsNoJob(t, w, inp);
    if n == 0 {
      LoadAnswers(t, w, inp);
    } else if n == 1 {
      ClaimAnswers(t, w, inp);
    } else {
      OwnerAnswers(t, w, inp);
    }
  }

  predicate OnItsWay(s: State, h: nat, id: Uuid, n: nat) {
    h in s.workers && PhaseAfter(n, s.workers[h].phase) && (n >= 1 ==> id in s.tables.jobs)
  }

  lemma ProgressOnce(start: State, plan: Plan, h: nat, id: Uuid, n: nat)
    requires TakesUp(start, plan, h, id)
    requires OnItsWay(HandlerMet(start, plan, h, n), h, id, n) && IndexOK(HandlerMet(start, plan, h, n).tables)
    requires var s := HandlerAt(start, plan, h, n + 1); h in s.workers && !s.workers[h].phase.Done?
    ensures OnItsWay(HandlerAt(start, plan, h, n + 1), h, id, n + 1)
  {
    CallIsStep(start, plan, h, id, n);
    var met := HandlerMet(start, plan, h, n);
    StepProgress(met.tables, met.workers[h], plan.input(n), n);
  }

  lemma {:induction false} Progress(start: State, plan: Plan, h: nat, id: Uuid, n: nat)
    requires Inv(start) && TakesUp(start, plan, h, id)
    requires var s := HandlerAt(start, plan, h, n); h in s.workers && !s.workers[h].phase.Done?
    ensures OnItsWay(HandlerAt(start, plan, h, n), h, id, n)
  {
    if n == 0 {
    } else {
      UnansweredBefore(start, plan, h, id, n - 1);
      Progress(start, plan, h, id, n - 1);
      MetTables(start, plan, h, id, n - 1);
      MetOnItsWay(start, plan, h, id, n - 1);
      ProgressOnce(start, plan, h, id, n - 1);
    }
  }

  lemma UnansweredBefore(start: State, plan: Plan, h: nat, id: Uuid, n: nat)
    requires TakesUp(start, plan, h, id)
    requires var s := HandlerAt(start, plan, h, n + 1); h in s.workers && !s.workers[h].phase.Done?
    ensures var s := HandlerAt(start, plan, h, n); h in s.workers && !s.workers[h].phase.Done?
  {
    HandlerStays(start, plan, h, id, n);
    if HandlerAt(start, plan, h, n).workers[h].phase.Done? {
      AnswerStays(start, plan, h, id, n, n + 1);
    }
  }

  lemma MetOnItsWay(start: State, plan: Plan, h: nat, id: Uuid, n: nat)
    requires TakesUp(start, plan, h, id) && OnItsWay(HandlerAt(start, plan, h, n), h, id, n)
    requires n >= 1 ==> id in HandlerMet(start, plan, h, n).tables.jobs
    ensures OnItsWay(HandlerMet(start, plan, h, n), h, id, n)
  {
    HandlerStays(start, plan, h, id, n);
  }

  // What an unanswered handler's next call meets.
  lemma NextCallMeets(start: State, plan: Plan, h: nat, id: Uuid, n: nat)
    requires Inv(start) && TakesUp(start, plan, h, id)
    requires var s := HandlerAt(start, plan, h, n); h in s.workers && !s.workers[h].phase.Done?
    ensures var met := HandlerMet(start, plan, h, n);
            OnItsWay(met, h, id, n) && IndexOK(met.tables) && (id in start.tables.jobs ==> id in met.tables.jobs)
  {
    Progress(start, plan, h, id, n);
    MetTables(start, plan, h, id, n);
    MetOnItsWay(start, plan, h, id, n);
  }

  // One call of the handler, as far as it is concerned.
  predicate Calls(met: State, after: State, h: nat, inp: Input) {
    && h in met.workers && h in after.workers
    && (after.tables, after.workers[h]) == WorkerStep(met.tables, met.workers[h], inp)
  }

  lemma CallIsStep(start: State, plan: Plan, h: nat, id: Uuid, n: nat)
    requires TakesUp(start, plan, h, id)
    ensures Calls(HandlerMet(start, plan, h, n), HandlerAt(start, plan, h, n + 1), h, plan.input(n))
    ensures var s, met := HandlerAt(start, plan, h, n), HandlerMet(start, plan, h, n);
            h in s.workers && met.workers[h] == s.workers[h] && met.workers[h].job == id
  {
    HandlerStays(start, plan, h, id, n);
    HandlerCall(start, plan, h, n);
  }

  lemma AbsentIsDiscarded(start: State, plan: Plan, h: nat, id: Uuid, n: nat)
    requires TakesUp(start, plan, h, id) && AnsweredBy(start, plan, h, n)
    requires id !in HandlerMet(start, plan, h, 0).tables.jobs && plan.input(0).fault.Clean?
    ensures var s := HandlerAt(start, plan, h, n);
            n == 1 && h in s.workers && s.workers[h].phase == Done(Discard, false)
  {
    var met := HandlerMet(start, plan, h, 0);
    HandlerStays(start, plan, h, id, 0);
    HandlerCall(start, plan, h, 0);
    LoadAnswers(met.tables, met.workers[h], plan.input(0));
    if n > 1 {
      AnswerStays(start, plan, h, id, 1, n - 1);
    }
  }

  lemma FaultyLoadRetries(start: State, plan: Plan, h: nat, id: Uuid, n: nat)
    requires TakesUp(start, plan, h, id) && AnsweredBy(start, plan, h, n) && !plan.input(0).fault.Clean?
    ensures var s := HandlerAt(start, plan, h, n);
            n == 1 && h in s.workers && s.workers[h].phase == Done(Retry(0), false)
  {
    CallIsStep(start, plan, h, id, 0);
    var met := HandlerMet(start, plan, h, 0);
    LoadAnswers(met.tables, met.workers[h], plan.input(0));
    if n > 1 {
      AnswerStays(start, plan, h, id, 1, n - 1);
    }
  }

  // What may be read off one answer and the tables it leaves, when the handler never claimed.
  lemma UnclaimedStep(t: Tables, w: Worker, inp: Input, n: nat)
    requires IndexOK(t) && PhaseAfter(n, w.phase) && (n >= 1 ==> w.job in t.jobs)
    ensures var (t', w') := WorkerStep(t, w, inp);
            w'.phase.Done? ==>
              var Done(d, owned) := w'.phase;
              && (w.job in t.jobs ==> d != Discard)
              && (!owned && w.job in t'.jobs && t'.jobs[w.job].status == Queued ==> d == Retry(0))
              && (!owned && d == Complete ==> w.job in t'.jobs && t'.jobs[w.job].status != Queued)
              && (!owned ==> d == Complete || d == Discard || d == Retry(0))
  {
    if n == 0 {
      LoadAnswers(t, w, inp);
    } else if n == 1 {
      ClaimAnswers(t, w, inp);
    } else {
      OwnerAnswers(t, w, inp);
    }
  }

  /** A handler's answer, for any schedule and any faults. A job that is in the
      table when its message arrives is never discarded; a message for an absent
      job is, by a load that works. A handler that never claimed asks for a
      redelivery if the job it leaves is QUEUED, and acknowledges only a job that
      somebody else claimed, finished or cancelled, or that is not enqueued yet. */
  lemma UnclaimedAnswers(start: State, plan: Plan, h: nat, id: Uuid, n: nat, d: Decision, owned: bool)
    requires Inv(start) && TakesUp(start, plan, h, id) && AnsweredBy(start, plan, h, n)
    requires var s := HandlerAt(start, plan, h, n); h in s.workers && s.workers[h].phase == Done(d, owned)
    ensures id in start.tables.jobs ==> d != Discard
    ensures id !in HandlerMet(start, plan, h, 0).tables.jobs && plan.input(0).fault.Clean? ==> d == Discard && !owned
    ensures var t := HandlerAt(start, plan, h, n).tables;
            && (!owned && id in t.jobs && t.jobs[id].status == Queued ==> d == Retry(0))
            && (!owned && d == Complete ==> id in t.jobs && t.jobs[id].status != Queued)
            && (!owned ==> d == Complete || d == Discard || d == Retry(0))
  {
    NextCallMeets(start, plan, h, id, n - 1);
    CallIsStep(start, plan, h, id, n - 1);
    var met := HandlerMet(start, plan, h, n - 1);
    UnclaimedStep(met.tables, met.workers[h], plan.input(n - 1), n - 1);
    if id !in HandlerMet(start, plan, h, 0).tables.jobs && plan.input(0).fault.Clean? {
      AbsentIsDiscarded(start, plan, h, id, n);
    }
  }

  /** Without faults of its own a handler claims exactly the jobs that its load finds
      not at an end and its claim finds QUEUED, given an unused attempt id. Of the
      others it discards the message of one that is not there, acknowledges one that
      is at an end or not QUEUED, and retries on a used attempt id. */
  lemma ClaimsExactly(start: State, plan: Plan, h: nat, id: Uuid, n: nat, d: Decision, owned: bool)
    requires Inv(start) && TakesUp(start, plan, h, id) && OwnCallsClean(plan) && AnsweredBy(start, plan, h, n)
    requires var s := HandlerAt(start, plan, h, n); h in s.workers && s.workers[h].phase == Done(d, owned)
    ensures var t, u := HandlerMet(start, plan, h, 0).tables, HandlerMet(start, plan, h, 1).tables;
            && (owned <==>
                  && id in t.jobs && !AtEnd(t.jobs[id].status)
                  && id in u.jobs && u.jobs[id].status == Queued && plan.input(1).attemptId !in u.attempts)
            && (d == Discard <==> id !in t.jobs)
            && (!owned && id in t.jobs ==>
                  d == if AtEnd(t.jobs[id].status) || (id in u.jobs && u.jobs[id].status != Queued) then Complete
                       else Retry(0))
  {
    HandlerStays(start, plan, h, id, 0);
    HandlerCall(start, plan, h, 0);
    var t := HandlerMet(start, plan, h, 0);
    LoadAnswers(t.tables, t.workers[h], plan.input(0));
    if HandlerAt(start, plan, h, 1).workers[h].phase.Done? {
      AnsweredThen(start, plan, h, id, 1, n);
    } else {
      ClaimsThen(start, plan, h, id, n, d, owned);
    }
  }

  lemma ClaimsThen(start: State, plan: Plan, h: nat, id: Uuid, n: nat, d: Decision, owned: bool)
    requires Inv(start) && TakesUp(start, plan, h, id) && OwnCallsClean(plan) && AnsweredBy(start, plan, h, n)
    requires var s := HandlerAt(start, plan, h, n); h in s.workers && s.workers[h].phase == Done(d, owned)
    requires var s := HandlerAt(start, plan, h, 1); h in s.workers && !s.workers[h].phase.Done?
    ensures var u := HandlerMet(start, plan, h, 1).tables;
            && id in u.jobs && d != Discard
            && (!owned ==> d == if u.jobs[id].status != Queued then Complete else Retry(0))
            && (owned <==> u.jobs[id].status == Queued && plan.input(1).attemptId !in u.attempts)
  {
    NextCallMeets(start, plan, h, id, 1);
    CallIsStep(start, plan, h, id, 1);
    var u := HandlerMet(start, plan, h, 1);
    ClaimAnswers(u.tables, u.workers[h], plan.input(1));
    if HandlerAt(start, plan, h, 2).workers[h].phase.Done? {
      AnsweredThen(start, plan, h, id, 2, n);
    } else {
      OwnerEnds(start, plan, h, id, n);
    }
  }

  lemma AnsweredThen(start: State, plan: Plan, h: nat, id: Uuid, k: nat, n: nat)
    requires TakesUp(start, plan, h, id) && AnsweredBy(start, plan, h, n)
    requires var s := HandlerAt(start, plan, h, n); h in s.workers && s.workers[h].phase.Done?
    requires var s := HandlerAt(start, plan, h, k); h in s.workers && s.workers[h].phase.Done?
    ensures HandlerAt(start, plan, h, n).workers[h] == HandlerAt(start, plan, h, k).workers[h]
  {
    if k <= n {
      AnswerStays(start, plan, h, id, k, n);
    } else {
      AnswerStays(start, plan, h, id, n, k);
    }
  }

  lemma OwnerEnds(start: State, plan: Plan, h: nat, id: Uuid, n: nat)
    requires Inv(start) && TakesUp(start, plan, h, id) && AnsweredBy(start, plan, h, n)
    requires var s := HandlerAt(start, plan, h, n); h in s.workers && s.workers[h].phase.Done?
    requires var s := HandlerAt(start, plan, h, 2); h in s.workers && !s.workers[h].phase.Done?
    ensures var p := HandlerAt(start, plan, h, n).workers[h].phase; p.owned && p.decision != Discard
  {
    if n <= 2 {
      AnswerStays(start, plan, h, id, n, 2);
    }
    NextCallMeets(start, plan, h, id, n - 1);
    CallIsStep(start, plan, h, id, n - 1);
    var met := HandlerMet(start, plan, h, n - 1);
    OwnerAnswers(met.tables, met.workers[h], plan.input(n - 1));
  }

  // ----------------------------------------------------- what the others leave to an owner

  // The job was left alone but for a cancel, and its attempt and artifacts entirely.
  ghost predicate SameOrCancelled(t: Tables, t': Tables, j: Uuid, a: Uuid) {
    && j in t.jobs && j in t'.jobs
    && (t'.jobs[j] == t.jobs[j] || t'.jobs[j] == t.jobs[j].(status := Cancelled))
    && a in t.attempts && a in t'.attempts && t'.attempts[a] == t.attempts[a]
    && (forall p :: p in t.artifacts && p.0 == j ==> p in t'.artifacts && t'.artifacts[p] == t.artifacts[p])
  }

  lemma OtherJobsStep(t: Tables, t': Tables, k: Uuid, w: Worker)
    requires w.phase.Owning? && OwnerOK(t, w) && OnlyTouches(t, t', k) && k != w.job
    ensures SameOrCancelled(t, t', w.job, w.phase.attempt)
  {
  }

  lemma OwnerUnderWorker(s: State, g: nat, inp: Input, h: nat)
    requires Inv(s) && h in s.workers && Owns(s.workers[h]) && g in s.workers && g != h
    ensures SameOrCancelled(s.tables, MoveWorker(s, g, inp).tables, s.workers[h].job, s.workers[h].phase.attempt)
  {
    assert OwnerOK(s.tables, s.workers[h]);
    if s.workers[g].job == s.workers[h].job {
      SameJobOwnsNothing(s, g, inp, h);
    } else {
      WorkerStepLegal(s.tables, s.workers[g], inp);
      OtherJobsStep(s.tables, MoveWorker(s, g, inp).tables, s.workers[g].job, s.workers[h]);
    }
  }

  lemma OwnerUnderCreate(t: Tables, c: Creator, inp: Input, w: Worker)
    requires w.phase.Owning? && OwnerOK(t, w)
    requires OnlyTouches(t, CreateStep(t, c, inp).0, CreateTarget(c))
    ensures SameOrCancelled(t, CreateStep(t, c, inp).0, w.job, w.phase.attempt)
  {
    CreateTouchesFresh(t, c, inp);
    if CreateStep(t, c, inp).0 != t {
      OtherJobsStep(t, CreateStep(t, c, inp).0, CreateTarget(c), w);
    }
  }

  lemma OwnerUnderCancel(t: Tables, c: Canceller, inp: Input, w: Worker)
    requires w.phase.Owning? && OwnerOK(t, w)
    ensures SameOrCancelled(t, CancelStep(t, c, inp).0, w.job, w.phase.attempt)
  {
    CancelEffect(t, c, inp);
  }

  lemma OwnerSpared(s: State, e: Event, h: nat)
    requires Inv(s) && h in s.workers && Owns(s.workers[h]) && SparesWorker(e, h)
    ensures SameOrCancelled(s.tables, Next(s, e).tables, s.workers[h].job, s.workers[h].phase.attempt)
  {
    assert OwnerOK(s.tables, s.workers[h]);
    if !Moves(s, e) {
      UnmovedTables(s, e);
    } else if e.WorkerMoves? {
      OwnerUnderWorker(s, e.h, e.inp, h);
    } else if e.CreateMoves? {
      CreateStepLegal(s.tables, s.creators[e.r], e.inp);
      OwnerUnderCreate(s.tables, s.creators[e.r], e.inp, s.workers[h]);
    } else {
      OwnerUnderCancel(s.tables, s.cancellers[e.x], e.inp, s.workers[h]);
    }
  }

  lemma SameThenSame(t: Tables, u: Tables, v: Tables, j: Uuid, a: Uuid)
    requires SameOrCancelled(t, u, j, a) && SameOrCancelled(u, v, j, a)
    ensures SameOrCancelled(t, v, j, a)
  {
  }

  lemma OwnerIsSame(t: Tables, w: Worker)
    requires w.phase.Owning? && OwnerOK(t, w)
    ensures SameOrCancelled(t, t, w.job, w.phase.attempt)
  {
  }

  lemma OwnerSparedStep(s: State, e: Event, h: nat)
    requires Inv(s) && h in s.workers && Owns(s.workers[h]) && SparesWorker(e, h)
    ensures Inv(Next(s, e)) && h in Next(s, e).workers && Next(s, e).workers[h] == s.workers[h]
    ensures SameOrCancelled(s.tables, Next(s, e).tables, s.workers[h].job, s.workers[h].phase.attempt)
  {
    StepKeeps(s, e);
    OwnerSpared(s, e, h);
    WorkerSparedOnce(s, e, h);
  }

  lemma OwnerIsSameNow(s: State, h: nat)
    requires OwnersOK(s) && h in s.workers && Owns(s.workers[h])
    ensures SameOrCancelled(s.tables, s.tables, s.workers[h].job, s.workers[h].phase.attempt)
  {
    assert OwnerOK(s.tables, s.workers[h]);
    OwnerIsSame(s.tables, s.workers[h]);
  }

  predicate AllSpare(events: seq<Event>, h: nat) {
    events == [] || (SparesWorker(events[0], h) && AllSpare(events[1..], h))
  }

  lemma {:induction false} PlansSpare(events: seq<Event>, h: nat)
    requires forall i | 0 <= i < |events| :: SparesWorker(events[i], h)
    ensures AllSpare(events, h)
  {
    if events == [] {
    } else {
      assert SparesWorker(events[0], h);
      PlansSpare(events[1..], h);
    }
  }

  lemma {:induction false} OwnerSparedRun(s: State, events: seq<Event>, h: nat)
    requires Inv(s) && h in s.workers && Owns(s.workers[h]) && AllSpare(events, h)
    ensures SameOrCancelled(s.tables, Run(s, events).tables, s.workers[h].job, s.workers[h].phase.attempt)
    decreases |events|
  {
    if events == [] {
      OwnerIsSameNow(s, h);
    } else {
      var w, s', rest := s.workers[h], Next(s, events[0]), events[1..];
      OwnerSparedStep(s, events[0], h);
      OwnerSparedRun(s', rest, h);
      assert Run(s, events) == Run(s', rest);
      SameThenSame(s.tables, s'.tables, Run(s', rest).tables, w.job, w.phase.attempt);
    }
  }

  lemma WorkerSparedOnce(s: State, e: Event, h: nat)
    requires h in s.workers && SparesWorker(e, h)
    ensures h in Next(s, e).workers && Next(s, e).workers[h] == s.workers[h]
  {
  }

  // --------------------------------------------------------------------- the owner's story

  // The result is recorded, with the size the pipeline produced.
  predicate Recorded(t: Tables, j: Uuid, size: nat) {
    (j, ResultKey(j)) in t.artifacts && t.artifacts[(j, ResultKey(j))] == ArtifactRow("output", "image/jpeg", size)
  }

  // How an attempt that ended in an error is written down.
  function Verdict(err: Err): AttemptStatus { if IsCancellation(err) then AttemptCancelled else AttemptFailed }

  // The pipeline stopped, and this is the error it returned.
  predicate FailedWith(plan: Plan, err: Err) {
    plan.input(2).outcome.Stopped? && err == Tag(plan.input(2).outcome.failure)
  }

  /** What an owner without faults of its own has done by its n-th call, and why it
      stands where it does. */
  predicate Told(t: Tables, w: Worker, plan: Plan, n: nat)
    requires w.phase.Owning?
  {
    var Owning(row, attempt, p) := w.phase;
    && w.job in t.jobs && attempt in t.attempts && attempt == plan.input(1).attemptId
    && var ended := t.attempts[attempt].status;
       var outcome := plan.input(2).outcome;
       match p
       case RunPipeline => n == 2
       case FinishSucceeded => n == 3 && outcome.Produced? && Recorded(t, w.job, outcome.sizeBytes)
       case MarkCompleted => n == 4 && outcome.Produced? && Recorded(t, w.job, outcome.sizeBytes)
       case FinishFailed(err) => n == 3 && FailedWith(plan, err)
       case Recheck(err) => n == 4 && FailedWith(plan, err) && ended == Verdict(err)
       case MarkFailed(err) => n == 5 && FailedWith(plan, err) && ended == Verdict(err)
       case RetryToFailed(err, delay) =>
         && n == 5 && FailedWith(plan, err) && ended == Verdict(err)
         && delay == Backoff.Delay(row.attemptCount, plan.input(4).draw)
       case RetryToRetrying(err, delay) =>
         && n == 6 && FailedWith(plan, err) && ended == Verdict(err)
         && delay == Backoff.Delay(row.attemptCount, plan.input(4).draw)
       case RetryToQueued(delay) =>
         && n == 7 && outcome.Stopped? && ended == Verdict(Tag(outcome.failure))
         && delay == Backoff.Delay(row.attemptCount, plan.input(4).draw)
         && !IsPermanent(Tag(outcome.failure)) && t.jobs[w.job].lastError == Some(Tag(outcome.failure))
  }

  /** What a claimed job has become when its handler answers. A produced output is
      recorded, the attempt is SUCCEEDED and the job COMPLETED. A failure is written
      down on the attempt, and the job is FAILED for good if the error is permanent
      or no attempts are left, or else QUEUED again with the drawn delay. A cancel
      that got in between shows as CANCELLED. */
  predicate Outcome(t: Tables, j: Uuid, plan: Plan, d: Decision) {
    var a := plan.input(1).attemptId;
    && j in t.jobs && a in t.attempts
    && var row := t.jobs[j];
       match plan.input(2).outcome
       case Produced(size) =>
         && d == Complete && (row.status == Completed || row.status == Cancelled)
         && t.attempts[a].status == Succeeded && Recorded(t, j, size)
       case Stopped(failure) =>
         var err := Tag(failure);
         var delay := Backoff.Delay(row.attemptCount, plan.input(4).draw);
         && t.attempts[a].status == Verdict(err)
         && if IsPermanent(err) || row.attemptCount >= row.maxAttempts then
              d == Complete && (row.status == Cancelled || (row.status == Failed && row.lastError == Some(err)))
            else
              || (row.status == Cancelled && (d == Complete || d == Retry(delay)))
              || (row.status == Queued && d == Retry(delay) && row.lastError == Some(err) && row.nextRetryAt == None)
  }

  lemma ToldKept(t: Tables, t': Tables, w: Worker, plan: Plan, n: nat)
    requires w.phase.Owning? && Told(t, w, plan, n) && SameOrCancelled(t, t', w.job, w.phase.attempt)
    ensures Told(t', w, plan, n)
  {
  }

  // One call of the owner goes on with the story or ends it.
  ghost predicate GoesOn(t: Tables, w: Worker, plan: Plan, n: nat) {
    if w.phase.Owning? then Told(t, w, plan, n) else w.phase.Done? && Outcome(t, w.job, plan, w.phase.decision)
  }

  lemma PipelineGoesOn(t: Tables, w: Worker, plan: Plan, n: nat)
    requires w.phase.Owning? && OwnerOK(t, w) && Told(t, w, plan, n) && plan.input(n).fault.Clean?
    requires w.phase.point.RunPipeline?
    ensures var (t', w') := OwnerStep(t, w, plan.input(n));
            GoesOn(t', w', plan, n + 1) && w'.job == w.job
  {
  }

  lemma FinishGoesOn(t: Tables, w: Worker, plan: Plan, n: nat)
    requires w.phase.Owning? && OwnerOK(t, w) && Told(t, w, plan, n) && plan.input(n).fault.Clean?
    requires w.phase.point.FinishSucceeded? || w.phase.point.FinishFailed? || w.phase.point.Recheck?
    ensures var (t', w') := OwnerStep(t, w, plan.input(n));
            GoesOn(t', w', plan, n + 1) && w'.job == w.job
  {
  }

  lemma EndGoesOn(t: Tables, w: Worker, plan: Plan, n: nat)
    requires w.phase.Owning? && OwnerOK(t, w) && Told(t, w, plan, n) && plan.input(n).fault.Clean?
    requires w.phase.point.MarkCompleted? || w.phase.point.MarkFailed?
    ensures var (t', w') := OwnerStep(t, w, plan.input(n));
            GoesOn(t', w', plan, n + 1) && w'.job == w.job
  {
  }

  lemma RetryGoesOn(t: Tables, w: Worker, plan: Plan, n: nat)
    requires w.phase.Owning? && OwnerOK(t, w) && Told(t, w, plan, n) && plan.input(n).fault.Clean?
    requires w.phase.point.RetryToFailed? || w.phase.point.RetryToRetrying? || w.phase.point.RetryToQueued?
    ensures var (t', w') := OwnerStep(t, w, plan.input(n));
            GoesOn(t', w', plan, n + 1) && w'.job == w.job
  {
  }

  lemma OwnCallGoesOn(t: Tables, w: Worker, plan: Plan, n: nat)
    requires w.phase.Owning? && OwnerOK(t, w) && Told(t, w, plan, n) && plan.input(n).fault.Clean?
    ensures var (t', w') := WorkerStep(t, w, plan.input(n));
            GoesOn(t', w', plan, n + 1) && w'.job == w.job
  {
    match w.phase.point
    case RunPipeline => PipelineGoesOn(t, w, plan, n);
    case FinishSucceeded => FinishGoesOn(t, w, plan, n);
    case FinishFailed(_) => FinishGoesOn(t, w, plan, n);
    case Recheck(_) => FinishGoesOn(t, w, plan, n);
    case MarkCompleted => EndGoesOn(t, w, plan, n);
    case MarkFailed(_) => EndGoesOn(t, w, plan, n);
    case RetryToFailed(_, _) => RetryGoesOn(t, w, plan, n);
    case RetryToRetrying(_, _) => RetryGoesOn(t, w, plan, n);
    case RetryToQueued(_) => RetryGoesOn(t, w, plan, n);
  }

  lemma ClaimTold(t: Tables, w: Worker, plan: Plan)
    requires w.phase.Loaded?
    ensures var (t', w') := WorkerStep(t, w, plan.input(1));
            w'.phase.Owning? ==> Told(t', w', plan, 2)
  {
  }

  ghost predicate ToldAt(s: State, h: nat, plan: Plan, n: nat) {
    h in s.workers && Owns(s.workers[h]) && Told(s.tables, s.workers[h], plan, n)
  }

  lemma ToldWhenMet(start: State, plan: Plan, h: nat, id: Uuid, n: nat)
    requires Inv(start) && TakesUp(start, plan, h, id) && ToldAt(HandlerAt(start, plan, h, n), h, plan, n)
    ensures var met := HandlerMet(start, plan, h, n);
            ToldAt(met, h, plan, n) && met.workers[h].job == id && OwnerOK(met.tables, met.workers[h])
  {
    var s := HandlerAt(start, plan, h, n);
    HandlerStays(start, plan, h, id, n);
    AtKeeps(start, plan, h, n);
    PlansSpare(plan.before(n), h);
    OwnerSparedRun(s, plan.before(n), h);
    ToldKept(s.tables, HandlerMet(start, plan, h, n).tables, s.workers[h], plan, n);
    MetOwner(start, plan, h, n);
  }

  lemma MetOwner(start: State, plan: Plan, h: nat, n: nat)
    requires Inv(start)
    requires var met := HandlerMet(start, plan, h, n); h in met.workers && Owns(met.workers[h])
    ensures var met := HandlerMet(start, plan, h, n); OwnerOK(met.tables, met.workers[h])
  {
    MetKeeps(start, plan, h, n);
  }

  ghost predicate GoesOnAt(s: State, h: nat, id: Uuid, plan: Plan, n: nat) {
    h in s.workers && s.workers[h].job == id && GoesOn(s.tables, s.workers[h], plan, n)
  }

  // The next call of an owner whose story is known.
  lemma ToldGoesOn(start: State, plan: Plan, h: nat, id: Uuid, n: nat)
    requires Inv(start) && TakesUp(start, plan, h, id) && OwnCallsClean(plan)
    requires ToldAt(HandlerAt(start, plan, h, n), h, plan, n)
    ensures GoesOnAt(HandlerAt(start, plan, h, n + 1), h, id, plan, n + 1)
  {
    ToldWhenMet(start, plan, h, id, n);
    CallIsStep(start, plan, h, id, n);
    var met := HandlerMet(start, plan, h, n);
    OwnCallGoesOn(met.tables, met.workers[h], plan, n);
  }

  lemma ClaimerTold(start: State, plan: Plan, h: nat, id: Uuid)
    requires Inv(start) && TakesUp(start, plan, h, id)
    requires var s := HandlerAt(start, plan, h, 2); h in s.workers && !s.workers[h].phase.Done?
    ensures ToldAt(HandlerAt(start, plan, h, 2), h, plan, 2)
  {
    UnansweredBefore(start, plan, h, id, 1);
    NextCallMeets(start, plan, h, id, 1);
    Progress(start, plan, h, id, 2);
    CallIsStep(start, plan, h, id, 1);
    var met := HandlerMet(start, plan, h, 1);
    ClaimTold(met.tables, met.workers[h], plan);
  }

  lemma {:induction false} OwnerTold(start: State, plan: Plan, h: nat, id: Uuid, n: nat)
    requires Inv(start) && TakesUp(start, plan, h, id) && OwnCallsClean(plan) && n >= 2
    requires var s := HandlerAt(start, plan, h, n); h in s.workers && !s.workers[h].phase.Done?
    ensures ToldAt(HandlerAt(start, plan, h, n), h, plan, n)
  {
    if n == 2 {
      ClaimerTold(start, plan, h, id);
    } else {
      UnansweredBefore(start, plan, h, id, n - 1);
      OwnerTold(start, plan, h, id, n - 1);
      ToldGoesOn(start, plan, h, id, n - 1);
    }
  }

  lemma OwnersClaimFirst(start: State, plan: Plan, h: nat, id: Uuid, n: nat, d: Decision)
    requires Inv(start) && TakesUp(start, plan, h, id) && AnsweredBy(start, plan, h, n)
    requires var s := HandlerAt(start, plan, h, n); h in s.workers && s.workers[h].phase == Done(d, true)
    ensures n >= 3
  {
    NextCallMeets(start, plan, h, id, n - 1);
    CallIsStep(start, plan, h, id, n - 1);
    var met, inp := HandlerMet(start, plan, h, n - 1), plan.input(n - 1);
    if n == 1 {
      LoadAnswers(met.tables, met.workers[h], inp);
    } else if n == 2 {
      ClaimAnswers(met.tables, met.workers[h], inp);
    }
  }

  /** The handler that claimed a job does with it what was asked: without faults of
      its own, and whatever the others do meanwhile, its answer and the tables it
      leaves are the outcome of its pipeline. */
  lemma ClaimedOutcome(start: State, plan: Plan, h: nat, id: Uuid, n: nat, d: Decision)
    requires Inv(start) && TakesUp(start, plan, h, id) && OwnCallsClean(plan) && AnsweredBy(start, plan, h, n)
    requires var s := HandlerAt(start, plan, h, n); h in s.workers && s.workers[h].phase == Done(d, true)
    ensures Outcome(HandlerAt(start, plan, h, n).tables, id, plan, d)
  {
    OwnersClaimFirst(start, plan, h, id, n, d);
    OwnerTold(start, plan, h, id, n - 1);
    StoryEnds(start, plan, h, id, n, d);
  }

  lemma StoryEnds(start: State, plan: Plan, h: nat, id: Uuid, n: nat, d: Decision)
    requires Inv(start) && TakesUp(start, plan, h, id) && OwnCallsClean(plan) && n >= 1
    requires ToldAt(HandlerAt(start, plan, h, n - 1), h, plan, n - 1)
    requires var s := HandlerAt(start, plan, h, n); h in s.workers && s.workers[h].phase == Done(d, true)
    ensures Outcome(HandlerAt(start, plan, h, n).tables, id, plan, d)
  {
    ToldGoesOn(start, plan, h, id, n - 1);
  }

  // -------------------------------------------------------------------- with nobody else about

  lemma {:induction false} AloneStaysUncancelled(start: State, plan: Plan, h: nat, id: Uuid, n: nat)
    requires TakesUp(start, plan, h, id) && Undisturbed(plan)
    requires id in start.tables.jobs && start.tables.jobs[id].status != Cancelled
    ensures var t := HandlerAt(start, plan, h, n).tables; id in t.jobs && t.jobs[id].status != Cancelled
  {
    if n == 0 {
    } else {
      AloneStaysUncancelled(start, plan, h, id, n - 1);
      CallIsStep(start, plan, h, id, n - 1);
      var met := HandlerMet(start, plan, h, n - 1);
      assert plan.before(n - 1) == [];
      HandlerWrites(met.tables, met.workers[h], WorkerMoves(h, plan.input(n - 1)), id);
    }
  }

  /** With nobody else about and no faults, the delivery of a job that is QUEUED is
      claimed and ends as its pipeline does, with no cancel in sight. */
  lemma AloneOutcome(start: State, plan: Plan, h: nat, id: Uuid, n: nat, d: Decision, owned: bool)
    requires Inv(start) && TakesUp(start, plan, h, id) && Undisturbed(plan) && AnsweredBy(start, plan, h, n)
    requires var s := HandlerAt(start, plan, h, n); h in s.workers && s.workers[h].phase == Done(d, owned)
    requires id in start.tables.jobs && start.tables.jobs[id].status == Queued
    requires plan.input(1).attemptId !in start.tables.attempts
    ensures var t := HandlerAt(start, plan, h, n).tables;
            owned && Outcome(t, id, plan, d) && t.jobs[id].status != Cancelled
  {
    AloneMeetsTheSame(start, plan, h, id);
    ClaimsExactly(start, plan, h, id, n, d, owned);
    ClaimedOutcome(start, plan, h, id, n, d);
    AloneStaysUncancelled(start, plan, h, id, n);
  }

  lemma AloneMeetsTheSame(start: State, plan: Plan, h: nat, id: Uuid)
    requires TakesUp(start, plan, h, id) && Undisturbed(plan)
    ensures HandlerMet(start, plan, h, 0).tables == start.tables
    ensures HandlerMet(start, plan, h, 1).tables == start.tables
  {
    assert plan.before(0) == [] && plan.before(1) == [];
    CallIsStep(start, plan, h, id, 0);
    LoadAnswers(start.tables, start.workers[h], plan.input(0));
  }

  // ---------------------------------------------------------------------- all of it together

  /** What the answer `d` to a delivery tells about the state `after` it, `s` being
      the state before. */
  ghost predicate HandlerTells(s: State, plan: Plan, h: nat, id: Uuid, d: Decision, owned: bool, after: State) {
    var met := HandlerMet(Next(s, Deliver(h, id)), plan, h, 0);
    && (id in s.tables.jobs ==> d != Discard)
    && (id !in met.tables.jobs && plan.input(0).fault.Clean? ==> d == Discard && !owned)
    && (!plan.input(0).fault.Clean? ==> d == Retry(0) && !owned)
    && (!owned && id in after.tables.jobs && after.tables.jobs[id].status == Queued ==> d == Retry(0))
    && (!owned && d == Complete ==> id in after.tables.jobs && after.tables.jobs[id].status != Queued)
    && (owned && OwnCallsClean(plan) ==> Outcome(after.tables, id, plan, d))
    && (Undisturbed(plan) && id in s.tables.jobs && s.tables.jobs[id].status == Queued
        && plan.input(1).attemptId !in s.tables.attempts ==>
          owned && id in after.tables.jobs && after.tables.jobs[id].status != Cancelled)
  }

  lemma DeliveredTakesUp(s: State, plan: Plan, h: nat, id: Uuid)
    requires Inv(s) && h !in s.workers && WorkerPlan(plan, h)
    ensures var start := Next(s, Deliver(h, id));
            Inv(start) && TakesUp(start, plan, h, id) && start.tables == s.tables
  {
    StepKeeps(s, Deliver(h, id));
  }

  lemma HandlerTellsSo(s: State, plan: Plan, h: nat, id: Uuid, n: nat, d: Decision, owned: bool)
    requires Inv(s) && h !in s.workers && WorkerPlan(plan, h)
    requires AnsweredBy(Next(s, Deliver(h, id)), plan, h, n)
    requires var after := HandlerAt(Next(s, Deliver(h, id)), plan, h, n);
             h in after.workers && after.workers[h].phase == Done(d, owned)
    ensures HandlerTells(s, plan, h, id, d, owned, HandlerAt(Next(s, Deliver(h, id)), plan, h, n))
  {
    var start := Next(s, Deliver(h, id));
    DeliveredTakesUp(s, plan, h, id);
    UnclaimedAnswers(start, plan, h, id, n, d, owned);
    if !plan.input(0).fault.Clean? {
      FaultyLoadRetries(start, plan, h, id, n);
    }
    if owned && OwnCallsClean(plan) {
      ClaimedOutcome(start, plan, h, id, n, d);
    }
    if Undisturbed(plan) && id in s.tables.jobs && s.tables.jobs[id].status == Queued
       && plan.input(1).attemptId !in s.tables.attempts {
      AloneOutcome(start, plan, h, id, n, d, owned);
    }
  }
}
