/** internal/worker/requeue.go: the startup sweep that republishes stuck QUEUED jobs. */
module Requeue {
  import opened GoTypes
  import opened Store
  import opened Protocol
  import opened Cluster

  // The republishes of the first n listed jobs that reached the stream, each after what the others did before it.
  function Republishes(jobs: seq<Uuid>, plan: Plan, n: nat): seq<Event>
    requires n <= |jobs|
  {
    if n == 0 then []
    else
      Republishes(jobs, plan, n - 1) + plan.before(n - 1)
      + (if plan.input(n - 1).fault.Dropped? then [] else [Republish(jobs[n - 1])])
  }

  function Confirmed(plan: Plan, n: nat): nat {
    if n == 0 then 0 else Confirmed(plan, n - 1) + (if plan.input(n - 1).fault.Clean? then 1 else 0)
  }

  // The confirmed publishes, one for each clean one.
  lemma {:induction false} ConfirmedCounts(plan: Plan, n: nat)
    ensures Confirmed(plan, n) == |set i | 0 <= i < n && plan.input(i).fault.Clean?|
  {
    if n == 0 {
    } else {
      ConfirmedCounts(plan, n - 1);
      var before := set i | 0 <= i < n - 1 && plan.input(i).fault.Clean?;
      var all := set i | 0 <= i < n && plan.input(i).fault.Clean?;
      assert all == if plan.input(n - 1).fault.Clean? then before + {n - 1} else before;
    }
  }

  // Every listed job whose publish was not dropped is among the messages, in whatever company.
  lemma {:induction false} ListedAreSent(s: State, jobs: seq<Uuid>, plan: Plan, n: nat, i: nat)
    requires i < n <= |jobs| && !plan.input(i).fault.Dropped?
    ensures Message(jobs[i], false) in Run(s, Republishes(jobs, plan, n)).published
  {
    var past := Republishes(jobs, plan, n - 1);
    var tail := if plan.input(n - 1).fault.Dropped? then [] else [Republish(jobs[n - 1])];
    RunAppend(s, past + plan.before(n - 1), tail);
    RunAppend(s, past, plan.before(n - 1));
    var mid := Run(s, past + plan.before(n - 1));
    if tail == [] {
    } else {
      RunOne(mid, Republish(jobs[n - 1]));
    }
    if i < n - 1 {
      ListedAreSent(s, jobs, plan, n - 1, i);
      MessagesStay(Run(s, past), plan.before(n - 1), Message(jobs[i], false));
      MessagesStay(mid, tail, Message(jobs[i], false));
    } else {
      assert Run(mid, tail).published == mid.published + [Message(jobs[i], false)];
    }
  }

  lemma MessageStays(s: State, e: Event, m: Message)
    requires m in s.published
    ensures m in Next(s, e).published
  {
  }

  lemma {:induction false} MessagesStay(s: State, events: seq<Event>, m: Message)
    requires m in s.published
    ensures m in Run(s, events).published
    decreases |events|
  {
    if events == [] {
    } else {
      MessageStays(s, events[0], m);
      MessagesStay(Next(s, events[0]), events[1..], m);
    }
  }

  /** Sweep: one failing publish does not stop the sweep, and the count is of
      confirmed publishes. It never touches a job row itself: the system has made
      exactly a run of republishes and other actors' steps. */
  method Sweep(sys: System, listed: Reply<seq<Uuid>>, plan: Plan)
    returns (requeued: nat, error: Option<StoreError>, ghost trace: seq<Event>)
    modifies sys, sys.repo
    ensures sys.View() == Run(old(sys.View()), trace)
    ensures match listed
            case Fail(e) => requeued == 0 && error == Some(e) && trace == []
            case Ok(jobs) =>
              && error == None && requeued == |set i | 0 <= i < |jobs| && plan.input(i).fault.Clean?|
              && trace == Republishes(jobs, plan, |jobs|)
              && (forall i :: 0 <= i < |jobs| && !plan.input(i).fault.Dropped? ==>
                    Message(jobs[i], false) in sys.View().published)
  {
    requeued, error, trace := 0, None, [];
    if listed.Fail? {
      error := Some(listed.error);
      return;
    }
    var jobs := listed.value;
    ghost var start := sys.View();
    for n := 0 to |jobs|
      invariant sys.View() == Run(start, trace)
      invariant trace == Republishes(jobs, plan, n)
      invariant requeued == Confirmed(plan, n)
    {
      RunAppend(start, trace, plan.before(n));
      sys.Interfere(plan.before(n));
      ghost var sent := [];
      if !plan.input(n).fault.Dropped? {
        var s := sys.View();
        sys.Record(Next(s, Republish(jobs[n])));
        RunOne(s, Republish(jobs[n]));
        sent := [Republish(jobs[n])];
      }
      RunAppend(start, trace + plan.before(n), sent);
      trace := trace + plan.before(n) + sent;
      if !plan.input(n).fault.Clean? {
        continue;
      }
      requeued := requeued + 1;
    }
    ConfirmedCounts(plan, |jobs|);
    forall i | 0 <= i < |jobs| && !plan.input(i).fault.Dropped?
      ensures Message(jobs[i], false) in sys.View().published
    {
      ListedAreSent(start, jobs, plan, |jobs|, i);
    }
  }
}
