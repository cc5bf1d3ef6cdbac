/**
 The shared system one actor's code runs in: a live repository and every other
 actor. Before each store call the others may take any number of steps. What the
 system may have done by an actor's n-th call is a function of its plan, so that
 the code has no say in it.
 */
module Cluster {
  import opened Repository
  import opened Protocol

  /** What the environment does to one run of an actor's code: the events of
      other actors before the k-th call, and the k-th call's input. */
  datatype Plan = Plan(before: nat -> seq<Event>, input: nat -> Input)

  // ---------------------------------------------------------------- runs compose

  lemma {:induction false} RunAppend(s: State, a: seq<Event>, b: seq<Event>)
    ensures Run(s, a + b) == Run(Run(s, a), b)
    decreases |a|
  {
    if a == [] {
      assert [] + b == b;
    } else {
      assert (a + b)[0] == a[0] && (a + b)[1..] == a[1..] + b;
      RunAppend(Next(s, a[0]), a[1..], b);
    }
  }

  lemma RunOne(s: State, e: Event)
    ensures Run(s, [e]) == Next(s, e)
  {
    assert [e][1..] == [];
  }

  // ------------------------------------------------------------------ runs of an actor

  // The system's events up to an actor's n-th call: before each, whatever the others do.
  function WorkerCalls(plan: Plan, h: nat, n: nat): seq<Event> {
    if n == 0 then [] else WorkerCalls(plan, h, n - 1) + plan.before(n - 1) + [WorkerMoves(h, plan.input(n - 1))]
  }

  function CreateCalls(plan: Plan, r: nat, n: nat): seq<Event> {
    if n == 0 then [] else CreateCalls(plan, r, n - 1) + plan.before(n - 1) + [CreateMoves(r, plan.input(n - 1))]
  }

  function CancelCalls(plan: Plan, x: nat, n: nat): seq<Event> {
    if n == 0 then [] else CancelCalls(plan, x, n - 1) + plan.before(n - 1) + [CancelMoves(x, plan.input(n - 1))]
  }

  lemma OneMoreCall(s: State, past: seq<Event>, others: seq<Event>, e: Event)
    ensures Run(s, past + others + [e]) == Next(Run(Run(s, past), others), e)
  {
    RunAppend(s, past + others, [e]);
    RunAppend(s, past, others);
    RunOne(Run(s, past + others), e);
  }

  lemma RunFirst(s: State, e: Event, rest: seq<Event>)
    ensures Run(s, [e] + rest) == Run(Next(s, e), rest)
  {
    RunAppend(s, [e], rest);
    RunOne(s, e);
  }

  // ------------------------------------------------------------- steps of the others

  predicate SparesWorker(e: Event, h: nat) {
    match e
    case Deliver(g, _) => g != h
    case WorkerMoves(g, _) => g != h
    case WorkerDies(g) => g != h
    case _ => true
  }

  predicate SparesCreator(e: Event, r: nat) {
    match e
    case CreateArrives(q, _, _) => q != r
    case CreateMoves(q, _) => q != r
    case CreateDies(q) => q != r
    case _ => true
  }

  predicate SparesCanceller(e: Event, x: nat) {
    match e
    case CancelArrives(y, _) => y != x
    case CancelMoves(y, _) => y != x
    case CancelDies(y) => y != x
    case _ => true
  }

  ghost predicate WorkerPlan(p: Plan, h: nat) {
    forall k: nat, i | 0 <= i < |p.before(k)| :: SparesWorker(p.before(k)[i], h)
  }

  ghost predicate CreatorPlan(p: Plan, r: nat) {
    forall k: nat, i | 0 <= i < |p.before(k)| :: SparesCreator(p.before(k)[i], r)
  }

  ghost predicate CancellerPlan(p: Plan, x: nat) {
    forall k: nat, i | 0 <= i < |p.before(k)| :: SparesCanceller(p.before(k)[i], x)
  }

  // Other actors' steps leave a handler's own state alone.
  lemma {:induction false} WorkerSpared(s: State, events: seq<Event>, h: nat)
    requires forall i | 0 <= i < |events| :: SparesWorker(events[i], h)
    ensures h in Run(s, events).workers <==> h in s.workers
    ensures h in s.workers ==> Run(s, events).workers[h] == s.workers[h]
    decreases |events|
  {
    if events == [] {
    } else {
      assert SparesWorker(events[0], h);
      WorkerSpared(Next(s, events[0]), events[1..], h);
    }
  }

  lemma {:induction false} CreatorSpared(s: State, events: seq<Event>, r: nat)
    requires forall i | 0 <= i < |events| :: SparesCreator(events[i], r)
    ensures r in Run(s, events).creators <==> r in s.creators
    ensures r in s.creators ==> Run(s, events).creators[r] == s.creators[r]
    decreases |events|
  {
    if events == [] {
    } else {
      assert SparesCreator(events[0], r);
      CreatorSpared(Next(s, events[0]), events[1..], r);
    }
  }

  lemma {:induction false} CancellerSpared(s: State, events: seq<Event>, x: nat)
    requires forall i | 0 <= i < |events| :: SparesCanceller(events[i], x)
    ensures x in Run(s, events).cancellers <==> x in s.cancellers
    ensures x in s.cancellers ==> Run(s, events).cancellers[x] == s.cancellers[x]
    decreases |events|
  {
    if events == [] {
    } else {
      assert SparesCanceller(events[0], x);
      CancellerSpared(Next(s, events[0]), events[1..], x);
    }
  }

  // ---------------------------------------------------------------------- the system

  class System {
    const repo: JobRepository
    // Everything but the tables, which live in `repo`.
    var rest: State

    constructor (repo: JobRepository, rest: State)
      ensures this.repo == repo && this.rest == rest
    {
      this.repo := repo;
      this.rest := rest;
    }

    function View(): State
      reads this, repo
    {
      rest.(tables := repo.View())
    }

    // Other actors take these steps.
    method Interfere(events: seq<Event>)
      modifies this, repo
      ensures View() == Run(old(View()), events)
    {
      var s := View();
      for i := 0 to |events|
        invariant Run(s, events[i..]) == Run(old(View()), events)
      {
        assert events[i..][1..] == events[i + 1..];
        s := Next(s, events[i]);
      }
      repo.Become(s.tables);
      rest := s;
    }

    // Records the local state of an actor; the tables are not its business.
    method Record(s: State)
      modifies this
      ensures View() == s.(tables := old(repo.View()))
    {
      rest := s;
    }
  }
}
