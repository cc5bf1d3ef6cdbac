/**
 internal/worker/pool.go: the dispatcher, the workers and the two-phase drain of
 Run as a transition system, and the settlement of one delivery as code.
 Deliveries are numbered in the order they are pulled.
 */
module Pool {
  import opened GoTypes
  import Protocol

  // ------------------------------------------------------------- settling one delivery

  datatype JobMessage = JobMessage(jobId: GoString, pipeline: GoString, version: GoString, correlation: GoString)

  datatype Verb = Ack | Nak(after: int) | Term

  // How one call of the handler ends.
  datatype HandlerRun = Returns(decision: Protocol.Decision) | Panics

  // What a worker met while processing one delivery.
  datatype Work = Unparseable | Handled(run: HandlerRun)

  function VerbFor(w: Work): Verb {
    match w
    case Unparseable => Term
    case Handled(Panics) => Nak(0)
    case Handled(Returns(Complete)) => Ack
    case Handled(Returns(Discard)) => Term
    case Handled(Returns(Retry(after))) => Nak(after)
  }

  /** One received message. Settling may fail on the wire; the attempt is made
      all the same and is what is recorded. */
  class Delivery {
    const data: GoString
    var settlements: seq<Verb>

    constructor (data: GoString)
      ensures this.data == data && settlements == []
    {
      this.data := data;
      settlements := [];
    }

    method Settle(verb: Verb, reaches: bool) returns (ok: bool)
      modifies this
      ensures settlements == old(settlements) + [verb] && ok == reaches
    {
      settlements := settlements + [verb];
      ok := reaches;
    }
  }

  /** Which settlement a delivery gets, and from what: an ack exactly for a handler
      that completed, a term exactly for a poison message, a nak for a retry or a
      panic. */
  lemma VerbMeans(w: Work, after: int)
    ensures VerbFor(w) == Ack <==> w == Handled(Returns(Protocol.Complete))
    ensures VerbFor(w) == Term <==> w == Unparseable || w == Handled(Returns(Protocol.Discard))
    ensures VerbFor(w) == Nak(after) <==>
              w == Handled(Returns(Protocol.Retry(after))) || (w == Handled(Panics) && after == 0)
  {
  }

  // handleWithRecovery: a panic becomes a Retry.
  method HandleWithRecovery(handle: JobMessage -> HandlerRun, msg: JobMessage) returns (d: Protocol.Decision)
    ensures handle(msg).Returns? ==> d == handle(msg).decision
    ensures handle(msg).Panics? ==> d == Protocol.Retry(0)
  {
    match handle(msg) {
      case Returns(decision) => d := decision;
      case Panics => d := Protocol.Retry(0);
    }
  }

  function WorkOn(data: GoString, parse: GoString -> Option<JobMessage>, handle: JobMessage -> HandlerRun): Work {
    match parse(data)
    case None => Unparseable
    case Some(msg) => Handled(handle(msg))
  }

  /** process: whatever the payload and the handler do, exactly one settlement is
      attempted. It is an Ack if and only if the payload parsed and the handler
      returned Complete, a Term if and only if it did not parse or the handler
      returned Discard, and a Nak with delay d if and only if the handler returned
      Retry(d), or panicked and d is 0. */
  method Process(del: Delivery, parse: GoString -> Option<JobMessage>, handle: JobMessage -> HandlerRun, reaches: bool)
    modifies del
    ensures |del.settlements| == |old(del.settlements)| + 1
    ensures del.settlements[..|old(del.settlements)|] == old(del.settlements)
    ensures var verb, msg := del.settlements[|old(del.settlements)|], parse(del.data);
            && (verb == Ack <==> msg.Some? && handle(msg.value) == Returns(Protocol.Complete))
            && (verb == Term <==> msg.None? || handle(msg.value) == Returns(Protocol.Discard))
            && (forall d :: verb == Nak(d) <==>
                  && msg.Some?
                  && (handle(msg.value) == Returns(Protocol.Retry(d)) || (handle(msg.value).Panics? && d == 0)))
    ensures del.settlements == old(del.settlements) + [VerbFor(WorkOn(del.data, parse, handle))]
  {
    var ok;
    match parse(del.data) {
      case None =>
        ok := del.Settle(Term, reaches);
      case Some(msg) =>
        var d := HandleWithRecovery(handle, msg);
        match d {
          case Complete => ok := del.Settle(Ack, reaches);
          case Discard => ok := del.Settle(Term, reaches);
          case Retry(after) => ok := del.Settle(Nak(after), reaches);
        }
    }
  }

  // ---------------------------------------------------------------- the running pool

  /** `Pulling` is a call of Next made before Stop, which may still return a
      delivery after it; `Refused` is one made after Stop, which can only fail. */
  datatype Dispatcher = Pulling | Holding(d: nat) | Refused | Stopped

  datatype Slot = Idle | Busy(d: nat) | Exited

  /** Where Run stands: waiting for the shutdown signal, waiting for the
      dispatcher after having stopped the consumer, waiting for the workers with the drain timer running, waiting
      for them after the timer cancelled processing, or back. */
  datatype Main = Serving | Draining | Closed | Forced | Returned

  // `worker` is None for the dispatcher's own Nak.
  datatype Settlement = Settlement(d: nat, worker: Option<nat>, verb: Verb)

  datatype Handoff = Handoff(d: nat, worker: nat)

  datatype State = State(
    dispatcher: Dispatcher,
    slots: seq<Slot>,
    main: Main,
    workClosed: bool,
    procCancelled: bool,
    pulled: nat,
    handoffs: seq<Handoff>,
    settled: seq<Settlement>,
    crashed: bool)

  datatype Event =
    | NextReturns
    | NextFails
    | Send(i: nat)
    | ForcedNak
    | Finish(i: nat, work: Work)
    | WorkerExits(i: nat)
    | Signal
    | CloseWork
    | DrainTimesOut
    | Drained

  function Start(concurrency: nat): State {
    State(Pulling, seq(concurrency, _ => Idle), Serving, false, false, 0, [], [], false)
  }

  function SlotAt(p: State, i: nat): Slot { if i < |p.slots| then p.slots[i] else Exited }

  /** One step of one goroutine; an event that is not enabled changes nothing.
      The consumer may return deliveries or errors at any time until Stop; the
      call of Next in flight at Stop may do either, and every later one fails.
      A send on the closed channel would crash the process. */
  function Next(p: State, e: Event): State {
    match e
    case NextReturns =>
      if p.dispatcher.Pulling? then p.(dispatcher := Holding(p.pulled), pulled := p.pulled + 1) else p
    case NextFails => if p.dispatcher.Pulling? || p.dispatcher.Refused? then p.(dispatcher := Stopped) else p
    case Send(i) =>
      if !p.dispatcher.Holding? then p
      else if p.workClosed then p.(crashed := true)
      else if !SlotAt(p, i).Idle? then p
      else p.(dispatcher := if p.main.Serving? then Pulling else Refused, slots := p.slots[i := Busy(p.dispatcher.d)],
              handoffs := p.handoffs + [Handoff(p.dispatcher.d, i)])
    case ForcedNak =>
      if p.dispatcher.Holding? && p.procCancelled then
        p.(dispatcher := Stopped, settled := p.settled + [Settlement(p.dispatcher.d, None, Nak(0))])
      else p
    case Finish(i, work) =>
      if SlotAt(p, i).Busy? then
        p.(slots := p.slots[i := Idle], settled := p.settled + [Settlement(p.slots[i].d, Some(i), VerbFor(work))])
      else p
    case WorkerExits(i) => if SlotAt(p, i).Idle? && p.workClosed then p.(slots := p.slots[i := Exited]) else p
    case Signal => if p.main.Serving? then p.(main := Draining) else p
    case CloseWork =>
      if p.main.Draining? && p.dispatcher.Stopped? then p.(main := Closed, workClosed := true) else p
    case DrainTimesOut => if p.main.Closed? then p.(main := Forced, procCancelled := true) else p
    case Drained =>
      if (p.main.Closed? || p.main.Forced?) && forall i :: 0 <= i < |p.slots| ==> p.slots[i] == Exited then
        p.(main := Returned, procCancelled := true)
      else p
  }

  function Run(p: State, events: seq<Event>): State
    decreases |events|
  {
    if events == [] then p else Run(Next(p, events[0]), events[1..])
  }

  // ---------------------------------------------------------------------- invariant

  function BusyCount(slots: seq<Slot>): nat {
    if slots == [] then 0 else (if slots[0].Busy? then 1 else 0) + BusyCount(slots[1..])
  }

  function HeldCount(p: State): nat { if p.dispatcher.Holding? then 1 else 0 }

  lemma {:induction false} BusyAtMostAll(slots: seq<Slot>)
    ensures BusyCount(slots) <= |slots|
    ensures (forall i :: 0 <= i < |slots| ==> !slots[i].Busy?) ==> BusyCount(slots) == 0
  {
    if slots == [] {
    } else {
      BusyAtMostAll(slots[1..]);
    }
  }

  lemma {:induction false} BusyAfterUpdate(slots: seq<Slot>, i: nat, slot: Slot)
    requires i < |slots|
    ensures BusyCount(slots[i := slot]) + (if slots[i].Busy? then 1 else 0)
            == BusyCount(slots) + (if slot.Busy? then 1 else 0)
  {
    if i == 0 {
      assert slots[0 := slot][1..] == slots[1..];
    } else {
      assert slots[i := slot][1..] == slots[1..][i - 1 := slot];
      BusyAfterUpdate(slots[1..], i - 1, slot);
    }
  }

  // The drain's phases: the channel closes only after the dispatcher is gone, and
  // processing is cancelled only after that.
  ghost predicate DrainOK(p: State) {
    && !p.crashed
    && (p.workClosed <==> p.main.Closed? || p.main.Forced? || p.main.Returned?)
    && (p.workClosed ==> p.dispatcher.Stopped?)
    && (p.procCancelled <==> p.main.Forced? || p.main.Returned?)
    && (forall i :: 0 <= i < |p.slots| && p.slots[i].Exited? ==> p.workClosed)
    && (p.main.Returned? ==> forall i :: 0 <= i < |p.slots| ==> p.slots[i].Exited?)
  }

  // No delivery is in two places.
  ghost predicate PlacesOK(p: State) {
    && (p.dispatcher.Holding? ==> p.dispatcher.d < p.pulled)
    && (forall i :: 0 <= i < |p.slots| && p.slots[i].Busy? ==>
          p.slots[i].d < p.pulled && (p.dispatcher.Holding? ==> p.slots[i].d != p.dispatcher.d))
    && (forall i, j :: 0 <= i < j < |p.slots| && p.slots[i].Busy? && p.slots[j].Busy? ==> p.slots[i].d != p.slots[j].d)
  }

  // Settlements are of deliveries nobody has any more, each once.
  ghost predicate SettledOK(p: State) {
    && (forall k :: 0 <= k < |p.settled| ==>
          p.settled[k].d < p.pulled && (p.dispatcher.Holding? ==> p.settled[k].d != p.dispatcher.d))
    && (forall k, i :: 0 <= k < |p.settled| && 0 <= i < |p.slots| && p.slots[i].Busy? ==>
          p.settled[k].d != p.slots[i].d)
    && (forall k, m :: 0 <= k < m < |p.settled| ==> p.settled[k].d != p.settled[m].d)
  }

  // Hand-offs are of deliveries that left the dispatcher, each once.
  ghost predicate HandoffsOK(p: State) {
    && (forall k :: 0 <= k < |p.handoffs| ==>
          p.handoffs[k].d < p.pulled && (p.dispatcher.Holding? ==> p.handoffs[k].d != p.dispatcher.d))
    && (forall k, m :: 0 <= k < m < |p.handoffs| ==> p.handoffs[k].d != p.handoffs[m].d)
    && (forall i :: 0 <= i < |p.slots| && p.slots[i].Busy? ==> Handoff(p.slots[i].d, i) in p.handoffs)
    && (forall k :: 0 <= k < |p.settled| ==>
          p.settled[k].worker.Some? && Handoff(p.settled[k].d, p.settled[k].worker.value) in p.handoffs)
  }

  predicate Settled(p: State, d: nat) { exists k :: 0 <= k < |p.settled| && p.settled[k].d == d }

  predicate AtWork(p: State, d: nat) { exists i :: 0 <= i < |p.slots| && p.slots[i] == Busy(d) }

  // No delivery is lost, and the numbers add up.
  ghost predicate CoverOK(p: State) {
    && (forall d: nat :: d < p.pulled ==> p.dispatcher == Holding(d) || AtWork(p, d) || Settled(p, d))
    && p.pulled == |p.settled| + BusyCount(p.slots) + HeldCount(p)
  }

  ghost predicate Inv(p: State) { DrainOK(p) && PlacesOK(p) && SettledOK(p) && HandoffsOK(p) && CoverOK(p) }

  // -------------------------------------------------------------------- preservation

  lemma StepKeepsDrain(p: State, e: Event)
    requires DrainOK(p)
    ensures DrainOK(Next(p, e)) && |Next(p, e).slots| == |p.slots|
  {
  }

  lemma StepKeepsPlaces(p: State, e: Event)
    requires PlacesOK(p)
    ensures PlacesOK(Next(p, e))
  {
  }

  lemma StepKeepsSettled(p: State, e: Event)
    requires DrainOK(p) && PlacesOK(p) && SettledOK(p)
    ensures SettledOK(Next(p, e))
  {
  }

  lemma StepKeepsHandoffs(p: State, e: Event)
    requires DrainOK(p) && PlacesOK(p) && HandoffsOK(p)
    ensures HandoffsOK(Next(p, e))
  {
    var q := Next(p, e);
    forall h | h in p.handoffs
      ensures h in q.handoffs
    {
      if e.Send? && q.handoffs != p.handoffs {
        assert h in p.handoffs + [Handoff(p.dispatcher.d, e.i)];
      }
    }
    if e.Send? && q.handoffs != p.handoffs {
      assert q.handoffs[|p.handoffs|] == Handoff(p.dispatcher.d, e.i);
    }
  }

  // Where a delivery can go in one step.
  lemma NobodyLoses(p: State, e: Event, d: nat)
    requires DrainOK(p) && (p.dispatcher == Holding(d) || AtWork(p, d) || Settled(p, d))
    ensures var q := Next(p, e); q.dispatcher == Holding(d) || AtWork(q, d) || Settled(q, d)
  {
    var q := Next(p, e);
    if Settled(p, d) {
      var k :| 0 <= k < |p.settled| && p.settled[k].d == d;
      assert q.settled[k].d == d;
    } else if AtWork(p, d) {
      var i :| 0 <= i < |p.slots| && p.slots[i] == Busy(d);
      if e.Finish? && e.i == i {
        assert q.settled[|p.settled|].d == d;
      } else {
        assert q.slots[i] == Busy(d);
      }
    } else if e.Send? && q.dispatcher != p.dispatcher {
      assert q.slots[e.i] == Busy(d);
    }
  }

  lemma CountsAdd(p: State, e: Event)
    requires DrainOK(p) && p.pulled == |p.settled| + BusyCount(p.slots) + HeldCount(p)
    ensures var q := Next(p, e); q.pulled == |q.settled| + BusyCount(q.slots) + HeldCount(q)
  {
    if (e.Send? || e.Finish? || e.WorkerExits?) && e.i < |p.slots| {
      BusyAfterUpdate(p.slots, e.i, SlotAt(Next(p, e), e.i));
    }
  }

  lemma StepKeepsCover(p: State, e: Event)
    requires DrainOK(p) && CoverOK(p)
    ensures CoverOK(Next(p, e))
  {
    var q := Next(p, e);
    CountsAdd(p, e);
    forall d: nat | d < q.pulled
      ensures q.dispatcher == Holding(d) || AtWork(q, d) || Settled(q, d)
    {
      if d < p.pulled {
        NobodyLoses(p, e, d);
      }
    }
  }

  lemma StepKeeps(p: State, e: Event)
    requires Inv(p)
    ensures Inv(Next(p, e)) && |Next(p, e).slots| == |p.slots|
  {
    StepKeepsDrain(p, e);
    StepKeepsPlaces(p, e);
    StepKeepsSettled(p, e);
    StepKeepsHandoffs(p, e);
    StepKeepsCover(p, e);
  }

  lemma {:induction false} IdleIsQuiet(n: nat)
    ensures BusyCount(seq(n, _ => Idle)) == 0
  {
    BusyAtMostAll(seq(n, _ => Idle));
  }

  lemma {:induction false} RunKeeps(p: State, events: seq<Event>)
    requires Inv(p)
    ensures Inv(Run(p, events)) && |Run(p, events).slots| == |p.slots|
    decreases |events|
  {
    if events == [] {
    } else {
      StepKeeps(p, events[0]);
      RunKeeps(Next(p, events[0]), events[1..]);
    }
  }

  // The pool after some schedule.
  function Reached(n: nat, events: seq<Event>): State { Run(Start(n), events) }

  lemma ReachedOK(n: nat, events: seq<Event>)
    ensures Inv(Reached(n, events)) && |Reached(n, events).slots| == n
  {
    IdleIsQuiet(n);
    RunKeeps(Start(n), events);
  }

  // -------------------------------------------------------------------- main results

  predicate SettledAt(p: State, d: nat, k: nat) { k < |p.settled| && p.settled[k].d == d }

  /** In every schedule a pulled delivery is in exactly one place: with the
      dispatcher, with exactly one worker, or settled exactly once. */
  lemma EveryDeliveryInOnePlace(n: nat, events: seq<Event>, d: nat)
    requires d < Reached(n, events).pulled
    ensures var p := Reached(n, events);
            && (p.dispatcher == Holding(d) || AtWork(p, d) || Settled(p, d))
            && !(p.dispatcher == Holding(d) && AtWork(p, d))
            && !(p.dispatcher == Holding(d) && Settled(p, d))
            && !(AtWork(p, d) && Settled(p, d))
            && (forall i, j :: 0 <= i < |p.slots| && 0 <= j < |p.slots| ==>
                  p.slots[i] == Busy(d) && p.slots[j] == Busy(d) ==> i == j)
            && (forall k, m :: SettledAt(p, d, k) && SettledAt(p, d, m) ==> k == m)
  {
    ReachedOK(n, events);
  }

  /** Every settlement is made by the one worker the delivery was handed to; in
      particular the dispatcher's own Nak, guarded by the cancelled processing
      context, is never reached. */
  lemma SettledByItsWorker(n: nat, events: seq<Event>, k: nat)
    requires k < |Reached(n, events).settled|
    ensures var p := Reached(n, events);
            && p.settled[k].worker.Some?
            && Handoff(p.settled[k].d, p.settled[k].worker.value) in p.handoffs
            && (forall h :: h in p.handoffs && h.d == p.settled[k].d ==> h.worker == p.settled[k].worker.value)
  {
    ReachedOK(n, events);
  }

  /** At most `n` handlers run, at most `n` + 1 pulled deliveries are unsettled,
      nothing is sent on the closed channel, and processing is never cancelled
      while the dispatcher lives: the drain timeout does not even start until a
      delivery it holds has been taken by a worker. */
  lemma BoundsAndDrainOrder(n: nat, events: seq<Event>)
    ensures var p := Reached(n, events);
            && BusyCount(p.slots) <= n
            && p.pulled - |p.settled| <= n + 1
            && !p.crashed
            && (p.procCancelled ==> p.dispatcher.Stopped? && p.workClosed)
            && (!p.dispatcher.Stopped? ==> p.main.Serving? || p.main.Draining?)
  {
    ReachedOK(n, events);
    BusyAtMostAll(Reached(n, events).slots);
  }

  // When Run returns, every pulled delivery has been settled.
  lemma ReturnedMeansSettled(n: nat, events: seq<Event>, d: nat)
    requires Reached(n, events).main.Returned? && d < Reached(n, events).pulled
    ensures Settled(Reached(n, events), d) && |Reached(n, events).settled| == Reached(n, events).pulled
  {
    ReachedOK(n, events);
    BusyAtMostAll(Reached(n, events).slots);
  }

  // ------------------------------------------------------------------ the drain ends

  function SlotRank(s: Slot): nat {
    match s
    case Busy(_) => 2
    case Idle => 1
    case Exited => 0
  }

  function SlotsRank(slots: seq<Slot>): nat {
    if slots == [] then 0 else SlotRank(slots[0]) + SlotsRank(slots[1..])
  }

  function DispatcherRank(d: Dispatcher): nat {
    match d
    case Pulling => 4
    case Holding(_) => 3
    case Refused => 1
    case Stopped => 0
  }

  function MainRank(m: Main): nat {
    match m
    case Serving => 4
    case Draining => 3
    case Closed => 2
    case Forced => 1
    case Returned => 0
  }

  // A hand-off makes one worker busy and the dispatcher two steps older.
  function DrainRank(p: State): nat { SlotsRank(p.slots) + DispatcherRank(p.dispatcher) + MainRank(p.main) }

  lemma {:induction false} RankAfterUpdate(slots: seq<Slot>, i: nat, slot: Slot)
    requires i < |slots|
    ensures SlotsRank(slots[i := slot]) + SlotRank(slots[i]) == SlotsRank(slots) + SlotRank(slot)
  {
    if i == 0 {
      assert slots[0 := slot][1..] == slots[1..];
    } else {
      assert slots[i := slot][1..] == slots[1..][i - 1 := slot];
      RankAfterUpdate(slots[1..], i - 1, slot);
    }
  }

  lemma {:induction false} RankBound(slots: seq<Slot>)
    ensures SlotsRank(slots) <= 2 * |slots|
  {
    if slots == [] {
    } else {
      RankBound(slots[1..]);
    }
  }

  // Once the consumer is stopped every step that changes anything brings the end nearer.
  lemma DrainStep(p: State, e: Event)
    requires DrainOK(p) && !p.main.Serving?
    ensures var q := Next(p, e);
            !q.main.Serving? && (q == p || DrainRank(q) < DrainRank(p))
  {
    if (e.Send? || e.Finish? || e.WorkerExits?) && e.i < |p.slots| {
      RankAfterUpdate(p.slots, e.i, SlotAt(Next(p, e), e.i));
    }
  }

  function Changes(p: State, events: seq<Event>): nat
    decreases |events|
  {
    if events == [] then 0
    else (if Next(p, events[0]) == p then 0 else 1) + Changes(Next(p, events[0]), events[1..])
  }

  lemma {:induction false} DrainRunsDown(p: State, events: seq<Event>)
    requires DrainOK(p) && !p.main.Serving?
    ensures Changes(p, events) <= DrainRank(p) && !Run(p, events).main.Serving?
    decreases |events|
  {
    if events == [] {
    } else {
      DrainStep(p, events[0]);
      StepKeepsDrain(p, events[0]);
      DrainRunsDown(Next(p, events[0]), events[1..]);
    }
  }

  // A busy worker can finish; an idle one takes the dispatcher's delivery or leaves.
  lemma SomeWorkerCanMove(p: State, i: nat)
    requires DrainOK(p) && i < |p.slots| && !p.slots[i].Exited? && (p.dispatcher.Holding? || p.workClosed)
    ensures exists e :: Next(p, e) != p
  {
    if p.slots[i].Busy? {
      assert Next(p, Finish(i, Unparseable)).slots[i] == Idle;
    } else if p.dispatcher.Holding? {
      assert Next(p, Send(i)).slots[i] == Busy(p.dispatcher.d);
    } else {
      assert Next(p, WorkerExits(i)).slots[i] == Exited;
    }
  }

  lemma SomethingCanMove(p: State)
    requires DrainOK(p) && |p.slots| >= 1 && !p.main.Serving? && !p.main.Returned?
    ensures exists e :: Next(p, e) != p
  {
    if p.dispatcher.Pulling? || p.dispatcher.Refused? {
      assert Next(p, NextFails).dispatcher == Stopped;
    } else if p.dispatcher.Holding? {
      SomeWorkerCanMove(p, 0);
    } else if p.main.Draining? {
      assert Next(p, CloseWork).main == Closed;
    } else if forall i :: 0 <= i < |p.slots| ==> p.slots[i] == Exited {
      assert Next(p, Drained).main == Returned;
    } else {
      var i :| 0 <= i < |p.slots| && p.slots[i] != Exited;
      SomeWorkerCanMove(p, i);
    }
  }

  /** From the shutdown signal on, whatever the dispatcher holds or is about to be
      given, Run is at most 2n + 7 effective steps from returning, 2n + 2 from the
      closing of the channel, and until it returns some step is possible: with handlers that return, the drain ends.
      NewPool raises the number of workers to at least one. */
  lemma DrainEnds(n: nat, events: seq<Event>, more: seq<Event>)
    requires n >= 1 && !Reached(n, events).main.Serving?
    ensures Changes(Reached(n, events), more) <= 2 * n + (if Reached(n, events).workClosed then 2 else 7)
    ensures var p := Run(Reached(n, events), more);
            !p.main.Returned? ==> exists e :: Next(p, e) != p
  {
    ReachedOK(n, events);
    var p := Reached(n, events);
    DrainRunsDown(p, more);
    RankBound(p.slots);
    RunKeeps(p, more);
    if !Run(p, more).main.Returned? {
      SomethingCanMove(Run(p, more));
    }
  }

  /** After the signal the dispatcher pulls at most the delivery of the call of
      Next that was in flight: nothing else is taken from the queue. */
  lemma {:induction false} PullsAtMostOne(p: State, events: seq<Event>)
    requires !p.main.Serving?
    ensures Run(p, events).pulled <= p.pulled + (if p.dispatcher.Pulling? then 1 else 0)
    decreases |events|
  {
    if events == [] {
    } else {
      PullsAtMostOne(Next(p, events[0]), events[1..]);
    }
  }
}
