/** The invariant holds in every reachable state. */
module ProtocolPreservation {
  import opened GoTypes
  import opened Domain
  import opened RequestHash
  import opened Store
  import opened Protocol
  import opened ProtocolInvariant
  import opened ProtocolSteps

  // ---------------------------------------- what survives a change made by someone else

  // The tables moved on without a new job or a new key.
  ghost predicate Advances(t: Tables, t': Tables) {
    Evolves(t, t') && t'.jobs.Keys == t.jobs.Keys && t'.keys == t.keys
  }

  lemma CreatorKept(t: Tables, t': Tables, c: Creator)
    requires CreatorOK(t, c) && Evolves(t, t')
    ensures CreatorOK(t', c)
  {
  }

  lemma CreatorsKept(s: State, s': State)
    requires CreatorsOK(s) && Evolves(s.tables, s'.tables) && s'.creators == s.creators
    ensures CreatorsOK(s')
  {
    forall r | r in s'.creators
      ensures CreatorOK(s'.tables, s'.creators[r])
    {
      CreatorKept(s.tables, s'.tables, s.creators[r]);
    }
  }

  lemma CreatedKept(s: State, s': State)
    requires CreatedOK(s) && Evolves(s.tables, s'.tables) && s'.creators == s.creators
    ensures CreatedOK(s')
  {
  }

  lemma OriginKept(s: State, s': State)
    requires OriginOK(s) && Advances(s.tables, s'.tables) && s'.origin == s.origin
    ensures OriginOK(s')
  {
  }

  lemma CancellersKept(s: State, s': State)
    requires CancellersOK(s) && Evolves(s.tables, s'.tables) && s'.cancellers == s.cancellers
    ensures CancellersOK(s')
  {
  }

  lemma PublishedKept(s: State, s': State)
    requires PublishedOK(s) && Evolves(s.tables, s'.tables)
    requires s'.published == s.published && s'.creators == s.creators
    ensures PublishedOK(s')
  {
  }

  lemma HashesKept(s: State, s': State)
    requires HashesOK(s) && OriginOK(s) && Evolves(s.tables, s'.tables)
    requires s'.origin == s.origin && s'.creators == s.creators
    ensures HashesOK(s')
  {
  }

  lemma RequestsKept(s: State, s': State)
    requires RequestsOK(s) && Advances(s.tables, s'.tables)
    requires s'.origin == s.origin && s'.published == s.published
    requires s'.creators == s.creators && s'.cancellers == s.cancellers
    ensures RequestsOK(s')
  {
    CreatorsKept(s, s');
    CreatedKept(s, s');
    OriginKept(s, s');
    CancellersKept(s, s');
    PublishedKept(s, s');
    HashesKept(s, s');
  }

  // ------------------------------------------------------------------- worker moves

  // Updates, claims, finishes and artifacts add neither jobs nor keys.
  lemma WorkerAddsNoJob(t: Tables, w: Worker, inp: Input)
    ensures var t' := WorkerStep(t, w, inp).0;
            t'.jobs.Keys == t.jobs.Keys && t'.keys == t.keys
  {
    if w.phase.Owning? {
      OwnerAddsNoJob(t, w, inp);
    } else {
      NonOwnerStep(t, w, inp);
    }
  }

  lemma OwnerAddsNoJob(t: Tables, w: Worker, inp: Input)
    requires w.phase.Owning?
    ensures var t' := OwnerStep(t, w, inp).0;
            t'.jobs.Keys == t.jobs.Keys && t'.keys == t.keys
  {
    if WritesStatus(w.phase.point) {
      OwnerStatusStep(t, w, inp);
    }
  }

  // A handler other than `h` on the job `h` works on owns nothing after `h` moved.
  lemma SameJobOwnsNothing(s: State, h: nat, inp: Input, g: nat)
    requires OwnersOK(s) && Exclusive(s) && h in s.workers && g in s.workers && g != h
    requires s.workers[g].job == s.workers[h].job && Owns(s.workers[g])
    ensures var (t', w') := WorkerStep(s.tables, s.workers[h], inp);
            t' == s.tables && !Owns(w')
  {
    NonOwnerStep(s.tables, s.workers[h], inp);
  }

  lemma WorkerKeepsJob(t: Tables, w: Worker, inp: Input)
    ensures WorkerStep(t, w, inp).1.job == w.job
  {
    if w.phase.Owning? {
    } else {
      NonOwnerStep(t, w, inp);
    }
  }

  lemma MoverStillFits(s: State, h: nat, inp: Input)
    requires OwnersOK(s) && h in s.workers
    ensures var (t', w') := WorkerStep(s.tables, s.workers[h], inp);
            w'.phase.Owning? ==> OwnerOK(t', w')
  {
    var w := s.workers[h];
    if w.phase.Owning? {
      OwnerStepKeepsOwner(s.tables, w, inp);
    } else if w.phase.Loaded? {
      ClaimerOwns(s.tables, w, inp);
    } else {
      NonOwnerStep(s.tables, w, inp);
    }
  }

  lemma WorkerKeepsOwners(s: State, h: nat, inp: Input)
    requires OwnersOK(s) && Exclusive(s) && h in s.workers
    requires OnlyTouches(s.tables, MoveWorker(s, h, inp).tables, s.workers[h].job)
    ensures OwnersOK(MoveWorker(s, h, inp))
  {
    var s' := MoveWorker(s, h, inp);
    forall g | g in s'.workers && s'.workers[g].phase.Owning?
      ensures OwnerOK(s'.tables, s'.workers[g])
    {
      if g == h {
        MoverStillFits(s, h, inp);
      } else if s.workers[g].job == s.workers[h].job {
        SameJobOwnsNothing(s, h, inp, g);
      } else {
        OtherOwnerUntouched(s.tables, s'.tables, s.workers[h].job, s.workers[g]);
      }
    }
  }

  lemma WorkerKeepsExclusive(s: State, h: nat, inp: Input)
    requires OwnersOK(s) && Exclusive(s) && h in s.workers
    ensures Exclusive(MoveWorker(s, h, inp))
  {
    var s' := MoveWorker(s, h, inp);
    WorkerKeepsJob(s.tables, s.workers[h], inp);
    forall g | g in s.workers && g != h && Owns(s.workers[g]) && s.workers[g].job == s.workers[h].job
      ensures !Owns(s'.workers[h])
    {
      SameJobOwnsNothing(s, h, inp, g);
    }
  }

  // The handler's own clean Complete settles its job.
  lemma OwnerCompleteSettles(t: Tables, w: Worker, inp: Input)
    requires w.phase.Owning? && OwnerOK(t, w)
    ensures var (t', w') := OwnerStep(t, w, inp);
            CleanComplete(w') ==> w.job in t'.jobs && t'.jobs[w.job].status in {Completed, Cancelled, Failed}
  {
    if WritesStatus(w.phase.point) {
      OwnerStatusCompleteSettles(t, w, inp);
    }
  }

  lemma OwnerStatusCompleteSettles(t: Tables, w: Worker, inp: Input)
    requires w.phase.Owning? && OwnerOK(t, w) && WritesStatus(w.phase.point)
    ensures var (t', w') := OwnerStep(t, w, inp);
            CleanComplete(w') ==> w.job in t'.jobs && t'.jobs[w.job].status in {Completed, Cancelled, Failed}
  {
  }

  // Nobody but an owner moves a FAILED job.
  lemma SettledStaysUnderWorker(s: State, h: nat, inp: Input, j: Uuid)
    requires h in s.workers && Settled(s, j)
    requires Evolves(s.tables, MoveWorker(s, h, inp).tables)
    requires OnlyTouches(s.tables, MoveWorker(s, h, inp).tables, s.workers[h].job)
    ensures Settled(MoveWorker(s, h, inp), j)
  {
    var s' := MoveWorker(s, h, inp);
    var w := s.workers[h];
    WorkerKeepsJob(s.tables, w, inp);
    if s.tables.jobs[j].status == Failed {
      if w.phase.Owning? {
        assert w.job != j;
      } else {
        NonOwnerStep(s.tables, w, inp);
      }
    }
  }

  lemma WorkerKeepsAcked(s: State, h: nat, inp: Input)
    requires OwnersOK(s) && Exclusive(s) && AckedOK(s) && h in s.workers
    requires Evolves(s.tables, MoveWorker(s, h, inp).tables)
    requires OnlyTouches(s.tables, MoveWorker(s, h, inp).tables, s.workers[h].job)
    ensures AckedOK(MoveWorker(s, h, inp))
  {
    var s' := MoveWorker(s, h, inp);
    forall g | g in s'.workers && CleanComplete(s'.workers[g])
      ensures Settled(s', s'.workers[g].job)
    {
      if g in s.workers && CleanComplete(s.workers[g]) {
        SettledStaysUnderWorker(s, h, inp, s.workers[g].job);
        WorkerKeepsJob(s.tables, s.workers[h], inp);
      } else {
        NewlyAckedSettled(s, h, inp);
      }
    }
  }

  lemma NewlyAckedSettled(s: State, h: nat, inp: Input)
    requires OwnersOK(s) && Exclusive(s) && h in s.workers
    requires !CleanComplete(s.workers[h]) && CleanComplete(MoveWorker(s, h, inp).workers[h])
    ensures var s' := MoveWorker(s, h, inp);
            Settled(s', s'.workers[h].job)
  {
    var w := s.workers[h];
    if w.phase.Owning? {
      OwnerCompleteSettles(s.tables, w, inp);
      WorkerKeepsJob(s.tables, w, inp);
    } else {
      NonOwnerStep(s.tables, w, inp);
    }
  }

  lemma WorkerMoveKeeps(s: State, h: nat, inp: Input)
    requires Inv(s) && h in s.workers
    ensures Inv(MoveWorker(s, h, inp))
    ensures Evolves(s.tables, MoveWorker(s, h, inp).tables)
  {
    WorkerStepLegal(s.tables, s.workers[h], inp);
    WorkerAddsNoJob(s.tables, s.workers[h], inp);
    WorkerKeepsOwners(s, h, inp);
    WorkerKeepsExclusive(s, h, inp);
    WorkerKeepsAcked(s, h, inp);
    RequestsKept(s, MoveWorker(s, h, inp));
  }

  // ------------------------------------------------------------------- create moves

  // A create step changes the tables only for a job that is absent or PENDING.
  lemma CreateTouchesFresh(t: Tables, c: Creator, inp: Input)
    ensures var t', j := CreateStep(t, c, inp).0, CreateTarget(c);
            t' != t ==> j !in t.jobs || t.jobs[j].status == Pending
  {
    CreateForm(t, c, inp);
    if c.phase.Inserting? {
      InsertForm(t, c.req.job, c.req.key, c.req.hash);
    }
  }

  lemma OwnersSurviveCreate(s: State, r: nat, inp: Input)
    requires OwnersOK(s) && Exclusive(s) && AckedOK(s) && r in s.creators
    requires Evolves(s.tables, MoveCreate(s, r, inp).tables)
    requires OnlyTouches(s.tables, MoveCreate(s, r, inp).tables, CreateTarget(s.creators[r]))
    ensures var s' := MoveCreate(s, r, inp);
            OwnersOK(s') && Exclusive(s') && AckedOK(s')
  {
    var s', j := MoveCreate(s, r, inp), CreateTarget(s.creators[r]);
    CreateTouchesFresh(s.tables, s.creators[r], inp);
    forall h | h in s'.workers && s'.workers[h].phase.Owning?
      ensures OwnerOK(s'.tables, s'.workers[h])
    {
      if s'.tables != s.tables {
        OtherOwnerUntouched(s.tables, s'.tables, j, s.workers[h]);
      }
    }
  }

  lemma InsertStepFits(t: Tables, c: Creator, inp: Input)
    requires CreatorOK(t, c) && KeysOK(t) && c.phase.Inserting?
    ensures CreatorOK(CreateStep(t, c, inp).0, CreateStep(t, c, inp).2)
  {
  }

  lemma EnqueueStepFits(t: Tables, c: Creator, inp: Input)
    requires CreatorOK(t, c) && c.phase.Enqueuing?
    ensures CreatorOK(CreateStep(t, c, inp).0, CreateStep(t, c, inp).2)
  {
  }

  lemma ReplyStepFits(t: Tables, c: Creator, inp: Input)
    requires CreatorOK(t, c) && KeysOK(t) && !c.phase.Inserting? && !c.phase.Enqueuing?
    ensures CreatorOK(CreateStep(t, c, inp).0, CreateStep(t, c, inp).2)
  {
  }

  lemma CreatorStepFits(t: Tables, c: Creator, inp: Input)
    requires CreatorOK(t, c) && KeysOK(t)
    ensures CreatorOK(CreateStep(t, c, inp).0, CreateStep(t, c, inp).2)
  {
    if c.phase.Inserting? {
      InsertStepFits(t, c, inp);
    } else if c.phase.Enqueuing? {
      EnqueueStepFits(t, c, inp);
    } else {
      ReplyStepFits(t, c, inp);
    }
  }

  lemma CreatorsSurviveCreate(s: State, r: nat, inp: Input)
    requires CreatorsOK(s) && KeysOK(s.tables) && r in s.creators
    requires Evolves(s.tables, MoveCreate(s, r, inp).tables)
    ensures CreatorsOK(MoveCreate(s, r, inp))
  {
    var s' := MoveCreate(s, r, inp);
    forall q | q in s'.creators
      ensures CreatorOK(s'.tables, s'.creators[q])
    {
      if q == r {
        CreatorStepFits(s.tables, s.creators[r], inp);
      } else {
        CreatorKept(s.tables, s'.tables, s.creators[q]);
      }
    }
  }

  // created=true is learnt only from the step that committed the row.
  lemma CreatedStep(t: Tables, c: Creator, inp: Input)
    ensures var (t', _, c') := CreateStep(t, c, inp);
            && c'.req == c.req
            && (Created(c') && !Created(c) ==>
                  && c.req.job.id !in t.jobs && c.req.job.id in t'.jobs
                  && (c.req.key != [] ==> c.req.key in t'.keys && t'.keys[c.req.key].job == c.req.job.id))
  {
  }

  lemma CreatedSurvivesCreate(s: State, r: nat, inp: Input)
    requires CreatedOK(s) && r in s.creators
    requires Evolves(s.tables, MoveCreate(s, r, inp).tables)
    ensures CreatedOK(MoveCreate(s, r, inp))
  {
    CreatedStep(s.tables, s.creators[r], inp);
  }

  // What a create step does to the rows, keys and provenance: nothing, or one committed insert.
  ghost predicate Committed(s: State, s': State, req: Request) {
    && req.job.id !in s.tables.jobs && (req.key == [] || req.key !in s.tables.keys)
    && s'.tables.jobs == s.tables.jobs[req.job.id := FreshRow(req.job)]
    && s'.tables.keys == KeysAfter(s.tables, req.job, req.key, req.hash)
    && s'.origin == s.origin[req.job.id := Origin(req.key, req.hash)]
  }

  lemma CreateTables(t: Tables, c: Creator, inp: Input)
    ensures var t', p := CreateStep(t, c, inp).0, c.req.job;
            || (t'.jobs.Keys == t.jobs.Keys && t'.keys == t.keys)
            || (p.id !in t.jobs && (c.req.key == [] || c.req.key !in t.keys)
                && t' == AddRow(t, p.id, FreshRow(p), KeysAfter(t, p, c.req.key, c.req.hash)))
  {
    CreateForm(t, c, inp);
    if c.phase.Inserting? {
      InsertForm(t, c.req.job, c.req.key, c.req.hash);
    }
  }

  lemma CreateCommits(s: State, r: nat, inp: Input)
    requires r in s.creators
    ensures var s', req := MoveCreate(s, r, inp), s.creators[r].req;
            || (s'.tables.jobs.Keys == s.tables.jobs.Keys && s'.tables.keys == s.tables.keys && s'.origin == s.origin)
            || Committed(s, s', req)
  {
    CreateTables(s.tables, s.creators[r], inp);
  }

  lemma CommitKeepsOrigin(s: State, s': State, req: Request)
    requires OriginOK(s) && KeysOK(s.tables) && Committed(s, s', req)
    ensures OriginOK(s')
  {
  }

  lemma OriginSurvivesCreate(s: State, r: nat, inp: Input)
    requires OriginOK(s) && KeysOK(s.tables) && r in s.creators
    ensures OriginOK(MoveCreate(s, r, inp))
  {
    CreateCommits(s, r, inp);
    var s' := MoveCreate(s, r, inp);
    if Committed(s, s', s.creators[r].req) {
      CommitKeepsOrigin(s, s', s.creators[r].req);
    }
  }

  lemma CommitKeepsHashes(s: State, s': State, r: nat)
    requires HashesOK(s) && OriginOK(s) && r in s.creators && Committed(s, s', s.creators[r].req)
    ensures forall j :: j in s'.origin && j in s'.tables.jobs ==> s'.origin[j].hash == HashOf(s'.tables.jobs[j].spec)
  {
    var req := s.creators[r].req;
    assert req.hash == HashOf(req.job.spec);
  }

  lemma HashesSurviveCreate(s: State, r: nat, inp: Input)
    requires HashesOK(s) && OriginOK(s) && r in s.creators
    requires Evolves(s.tables, MoveCreate(s, r, inp).tables)
    ensures HashesOK(MoveCreate(s, r, inp))
  {
    var s' := MoveCreate(s, r, inp);
    CreateCommits(s, r, inp);
    CreatedStep(s.tables, s.creators[r], inp);
    if Committed(s, s', s.creators[r].req) {
      CommitKeepsHashes(s, s', r);
    }
  }

  // Publishing follows only the request's own PENDING -> QUEUED update.
  lemma PublishStep(t: Tables, c: Creator, inp: Input)
    ensures var (t', sent, c') := CreateStep(t, c, inp);
            && (sent != [] ==> c.phase.Publishing? && sent == [Message(c.phase.id, true)])
            && (c.phase.Publishing? ==> !c'.phase.Publishing?)
            && (c'.phase.Publishing? ==>
                  && c.phase.Enqueuing? && c'.phase.id == c.phase.id && c.phase.id in t.jobs
                  && t.jobs[c.phase.id].status == Pending && c.phase.id in t'.jobs
                  && t'.jobs[c.phase.id].status == Queued)
  {
  }

  // The moved request neither published nor got ready to.
  lemma QuietMoveKeepsPublished(s: State, s': State, r: nat, c': Creator)
    requires PublishedOK(s) && Evolves(s.tables, s'.tables) && r in s.creators
    requires s'.published == s.published && s'.creators == s.creators[r := c'] && !ToPublish(c')
    ensures PublishedOK(s')
  {
  }

  lemma PublishKeepsPublished(s: State, s': State, r: nat, c': Creator)
    requires PublishedOK(s) && Evolves(s.tables, s'.tables) && r in s.creators
    requires ToPublish(s.creators[r]) && CreatorOK(s.tables, s.creators[r]) && !ToPublish(c')
    requires s'.published == s.published + [Message(s.creators[r].phase.id, true)]
    requires s'.creators == s.creators[r := c']
    ensures PublishedOK(s')
  {
    var n, msg := |s.published|, Message(s.creators[r].phase.id, true);
    forall i | 0 <= i < |s'.published|
      ensures s'.published[i] == if i < n then s.published[i] else msg
    {
    }
    assert msg.job in s.tables.jobs && s.tables.jobs[msg.job].status != Pending;
  }

  lemma ReadyKeepsPublished(s: State, s': State, r: nat, c': Creator)
    requires PublishedOK(s) && CreatorsOK(s) && Evolves(s.tables, s'.tables) && r in s.creators
    requires s'.published == s.published && s'.creators == s.creators[r := c']
    requires !ToPublish(s.creators[r]) && ToPublish(c')
    requires c'.phase.id in s.tables.jobs && s.tables.jobs[c'.phase.id].status == Pending
    ensures PublishedOK(s')
  {
    forall q | q in s.creators && ToPublish(s.creators[q])
      ensures s.creators[q].phase.id != c'.phase.id
    {
      assert CreatorOK(s.tables, s.creators[q]);
    }
  }

  lemma PublishedSurvivesCreate(s: State, r: nat, inp: Input)
    requires PublishedOK(s) && CreatorsOK(s) && r in s.creators
    requires Evolves(s.tables, MoveCreate(s, r, inp).tables)
    ensures PublishedOK(MoveCreate(s, r, inp))
  {
    var s' := MoveCreate(s, r, inp);
    var (t', sent, c') := CreateStep(s.tables, s.creators[r], inp);
    PublishStep(s.tables, s.creators[r], inp);
    if sent != [] {
      PublishKeepsPublished(s, s', r, c');
    } else {
      assert s.published + sent == s.published;
      if ToPublish(c') {
        ReadyKeepsPublished(s, s', r, c');
      } else {
        QuietMoveKeepsPublished(s, s', r, c');
      }
    }
  }

  lemma CreateMoveKeeps(s: State, r: nat, inp: Input)
    requires Inv(s) && r in s.creators
    ensures Inv(MoveCreate(s, r, inp))
    ensures Evolves(s.tables, MoveCreate(s, r, inp).tables)
  {
    var s' := MoveCreate(s, r, inp);
    CreateStepLegal(s.tables, s.creators[r], inp);
    OwnersSurviveCreate(s, r, inp);
    CreatorsSurviveCreate(s, r, inp);
    CreatedSurvivesCreate(s, r, inp);
    OriginSurvivesCreate(s, r, inp);
    HashesSurviveCreate(s, r, inp);
    PublishedSurvivesCreate(s, r, inp);
    CancellersKept(s, s');
  }

  // ------------------------------------------------------------------- cancel moves

  // A cancel leaves FAILED, COMPLETED and CANCELLED rows alone and touches nothing but one status.
  lemma CancelEffect(t: Tables, c: Canceller, inp: Input)
    ensures var (t', c') := CancelStep(t, c, inp);
            && c'.job == c.job
            && t' == t.(jobs := t'.jobs) && t'.jobs.Keys == t.jobs.Keys
            && (t' != t ==>
                  && c.job in t.jobs && CanTransition(t.jobs[c.job].status, Cancelled)
                  && t' == SetRow(t, c.job, t.jobs[c.job].(status := Cancelled)))
            && (Succeeds(c') && !Succeeds(c) ==>
                  c.job in t.jobs && t.jobs[c.job].status != Cancelled && t'.jobs[c.job].status == Cancelled)
            && (Succeeds(c) ==> c' == c)
  {
    if c.phase.Trying? && CanTransition(c.phase.seen, Cancelled) {
      CancelTryEffect(t, c, inp);
    }
  }

  lemma CancelTryEffect(t: Tables, c: Canceller, inp: Input)
    requires c.phase.Trying? && CanTransition(c.phase.seen, Cancelled)
    ensures var t' := CancelStep(t, c, inp).0;
            t' != t ==>
              && c.job in t.jobs && t.jobs[c.job].status == c.phase.seen
              && t' == SetRow(t, c.job, t.jobs[c.job].(status := Cancelled))
  {
  }

  lemma OwnerSurvivesCancel(t: Tables, j: Uuid, w: Worker)
    requires w.phase.Owning? && OwnerOK(t, w)
    requires j in t.jobs && CanTransition(t.jobs[j].status, Cancelled)
    ensures OwnerOK(SetRow(t, j, t.jobs[j].(status := Cancelled)), w)
  {
  }

  lemma OwnersSurviveCancel(s: State, x: nat, inp: Input)
    requires OwnersOK(s) && Exclusive(s) && AckedOK(s) && x in s.cancellers
    requires Evolves(s.tables, MoveCancel(s, x, inp).tables)
    ensures var s' := MoveCancel(s, x, inp);
            OwnersOK(s') && Exclusive(s') && AckedOK(s')
  {
    var s', j := MoveCancel(s, x, inp), s.cancellers[x].job;
    CancelEffect(s.tables, s.cancellers[x], inp);
    forall h | h in s'.workers && s'.workers[h].phase.Owning?
      ensures OwnerOK(s'.tables, s'.workers[h])
    {
      if s'.tables != s.tables {
        OwnerSurvivesCancel(s.tables, j, s.workers[h]);
      }
    }
  }

  lemma CancellersSurviveCancel(s: State, x: nat, inp: Input)
    requires CancellersOK(s) && x in s.cancellers
    requires Evolves(s.tables, MoveCancel(s, x, inp).tables)
    ensures CancellersOK(MoveCancel(s, x, inp))
  {
    CancelEffect(s.tables, s.cancellers[x], inp);
  }

  lemma CancelMoveKeeps(s: State, x: nat, inp: Input)
    requires Inv(s) && x in s.cancellers
    ensures Inv(MoveCancel(s, x, inp))
    ensures Evolves(s.tables, MoveCancel(s, x, inp).tables)
  {
    var s' := MoveCancel(s, x, inp);
    CancelStepLegal(s.tables, s.cancellers[x], inp);
    CancelEffect(s.tables, s.cancellers[x], inp);
    OwnersSurviveCancel(s, x, inp);
    CancellersSurviveCancel(s, x, inp);
    CreatorsKept(s, s');
    CreatedKept(s, s');
    OriginKept(s, s');
    PublishedKept(s, s');
    HashesKept(s, s');
  }

  // --------------------------------------------------------------------- every step

  lemma UnchangedEvolves(t: Tables)
    ensures Advances(t, t)
  {
  }

  // A handler appeared or died; it owns nothing and had not answered.
  ghost predicate WorkerSwapped(s: State, s': State, h: nat) {
    && s' == s.(workers := s'.workers)
    && (forall g :: g in s'.workers ==> g == h || (g in s.workers && s'.workers[g] == s.workers[g]))
    && h in s'.workers && !Owns(s'.workers[h]) && !s'.workers[h].phase.Done?
    && (forall g :: g in s.workers ==> g in s'.workers && s'.workers[g].job == s.workers[g].job)
  }

  lemma WorkerSwapKeepsSettled(s: State, s': State, h: nat, j: Uuid)
    requires WorkerSwapped(s, s', h) && Settled(s, j)
    ensures Settled(s', j)
  {
  }

  lemma WorkerSwapKeeps(s: State, s': State, h: nat)
    requires WorkersOK(s) && WorkerSwapped(s, s', h)
    ensures WorkersOK(s')
  {
    forall g | g in s'.workers && CleanComplete(s'.workers[g])
      ensures Settled(s', s'.workers[g].job)
    {
      WorkerSwapKeepsSettled(s, s', h, s.workers[g].job);
    }
  }

  lemma WorkerEventForm(s: State, e: Event)
    requires e.Deliver? || e.WorkerDies?
    ensures Next(s, e) == s || WorkerSwapped(s, Next(s, e), e.h)
  {
  }

  lemma WorkerEventKeeps(s: State, e: Event)
    requires Inv(s) && (e.Deliver? || e.WorkerDies?)
    ensures Inv(Next(s, e)) && Next(s, e).tables == s.tables
  {
    var s' := Next(s, e);
    WorkerEventForm(s, e);
    if s' != s {
      WorkerSwapKeeps(s, s', e.h);
      UnchangedEvolves(s.tables);
      RequestsKept(s, s');
    }
  }

  lemma OwnersIgnoreRequests(s: State, s': State)
    requires WorkersOK(s) && s'.tables == s.tables && s'.workers == s.workers
    ensures WorkersOK(s')
  {
    forall h | h in s'.workers && CleanComplete(s'.workers[h])
      ensures Settled(s', s'.workers[h].job)
    {
      assert Settled(s, s.workers[h].job);
    }
  }

  // A create request appeared or was abandoned.
  ghost predicate CreatorSwapped(s: State, s': State, r: nat) {
    && r in s'.creators && s' == s.(creators := s.creators[r := s'.creators[r]])
    && s'.creators[r].phase in {Inserting, Abandoned}
  }

  lemma CreatorSwapKeepsCreators(s: State, s': State, r: nat)
    requires CreatorsOK(s) && CreatorSwapped(s, s', r)
    ensures CreatorsOK(s')
  {
  }

  lemma CreatorSwapKeepsCreated(s: State, s': State, r: nat)
    requires CreatedOK(s) && CreatorSwapped(s, s', r)
    ensures CreatedOK(s')
  {
  }

  lemma CreatorSwapKeepsPublished(s: State, s': State, r: nat)
    requires PublishedOK(s) && CreatorSwapped(s, s', r)
    ensures PublishedOK(s')
  {
  }

  lemma CreatorEventForm(s: State, e: Event)
    requires e.CreateArrives? || e.CreateDies?
    ensures Next(s, e) == s || CreatorSwapped(s, Next(s, e), e.r)
  {
  }

  lemma CreatorEventHashes(s: State, e: Event)
    requires HashesOK(s) && (e.CreateArrives? || e.CreateDies?)
    ensures HashesOK(Next(s, e))
  {
  }

  lemma CreatorEventKeeps(s: State, e: Event)
    requires RequestsOK(s) && (e.CreateArrives? || e.CreateDies?)
    ensures RequestsOK(Next(s, e))
  {
    var s' := Next(s, e);
    CreatorEventForm(s, e);
    CreatorEventHashes(s, e);
    if s' != s {
      UnchangedEvolves(s.tables);
      CreatorSwapKeepsCreators(s, s', e.r);
      CreatorSwapKeepsCreated(s, s', e.r);
      CreatorSwapKeepsPublished(s, s', e.r);
      OriginKept(s, s');
      CancellersKept(s, s');
    }
  }

  lemma CancellerEventCancellers(s: State, e: Event)
    requires CancellersOK(s) && (e.CancelArrives? || e.CancelDies?)
    ensures CancellersOK(Next(s, e))
    ensures Next(s, e) == s.(cancellers := Next(s, e).cancellers)
  {
  }

  // Nothing a request invariant other than CancellersOK reads has changed.
  lemma CancellersAside(s: State, s': State)
    requires RequestsOK(s) && s' == s.(cancellers := s'.cancellers, published := s'.published)
    ensures CreatorsOK(s') && CreatedOK(s') && OriginOK(s') && HashesOK(s')
  {
    UnchangedEvolves(s.tables);
    CreatorsKept(s, s');
    CreatedKept(s, s');
    OriginKept(s, s');
    HashesKept(s, s');
  }

  lemma CancellerEventKeeps(s: State, e: Event)
    requires RequestsOK(s) && (e.CancelArrives? || e.CancelDies?)
    ensures RequestsOK(Next(s, e))
  {
    CancellerEventCancellers(s, e);
    CancellersAside(s, Next(s, e));
    UnchangedEvolves(s.tables);
    PublishedKept(s, Next(s, e));
  }

  lemma RepublishKeepsPublished(s: State, j: Uuid)
    requires PublishedOK(s)
    ensures PublishedOK(Next(s, Republish(j)))
  {
    var n, s' := |s.published|, Next(s, Republish(j));
    forall i | 0 <= i < |s'.published| && s'.published[i].byApi
      ensures i < n && s'.published[i] == s.published[i]
    {
    }
  }

  lemma RepublishKeeps(s: State, j: Uuid)
    requires RequestsOK(s)
    ensures RequestsOK(Next(s, Republish(j)))
  {
    var s' := Next(s, Republish(j));
    UnchangedEvolves(s.tables);
    RepublishKeepsPublished(s, j);
    CancellersAside(s, s');
    CancellersKept(s, s');
  }

  lemma RequestEventKeeps(s: State, e: Event)
    requires RequestsOK(s) && !e.WorkerMoves? && !e.CreateMoves? && !e.CancelMoves? && !e.Deliver? && !e.WorkerDies?
    ensures RequestsOK(Next(s, e))
  {
    if e.CreateArrives? || e.CreateDies? {
      CreatorEventKeeps(s, e);
    } else if e.CancelArrives? || e.CancelDies? {
      CancellerEventKeeps(s, e);
    } else {
      RepublishKeeps(s, e.job);
    }
  }

  lemma RequestEventForm(s: State, e: Event)
    requires !e.WorkerMoves? && !e.CreateMoves? && !e.CancelMoves? && !e.Deliver? && !e.WorkerDies?
    ensures Next(s, e).tables == s.tables && Next(s, e).workers == s.workers
  {
  }

  // Arrivals, deaths and republishes leave the tables alone and give nobody anything.
  lemma OtherEventKeeps(s: State, e: Event)
    requires Inv(s) && !e.WorkerMoves? && !e.CreateMoves? && !e.CancelMoves?
    ensures Inv(Next(s, e)) && Next(s, e).tables == s.tables
  {
    if e.Deliver? || e.WorkerDies? {
      WorkerEventKeeps(s, e);
    } else {
      RequestEventForm(s, e);
      OwnersIgnoreRequests(s, Next(s, e));
      RequestEventKeeps(s, e);
    }
  }

  predicate Moves(s: State, e: Event) {
    || (e.WorkerMoves? && e.h in s.workers)
    || (e.CreateMoves? && e.r in s.creators)
    || (e.CancelMoves? && e.x in s.cancellers)
  }

  lemma MoveKeeps(s: State, e: Event)
    requires Inv(s) && Moves(s, e)
    ensures Inv(Next(s, e)) && Evolves(s.tables, Next(s, e).tables)
  {
    if e.WorkerMoves? {
      WorkerMoveKeeps(s, e.h, e.inp);
    } else if e.CreateMoves? {
      CreateMoveKeeps(s, e.r, e.inp);
    } else {
      CancelMoveKeeps(s, e.x, e.inp);
    }
  }

  lemma StepKeeps(s: State, e: Event)
    requires Inv(s)
    ensures Inv(Next(s, e)) && Evolves(s.tables, Next(s, e).tables)
  {
    if Moves(s, e) {
      MoveKeeps(s, e);
    } else if e.WorkerMoves? || e.CreateMoves? || e.CancelMoves? {
      assert Next(s, e) == s;
      UnchangedEvolves(s.tables);
    } else {
      OtherEventKeeps(s, e);
      UnchangedEvolves(s.tables);
    }
  }

  lemma NoRowsOK(t: Tables)
    requires t == Tables(map[], map[], map[], map[], map[])
    ensures TablesOK(t)
  {
  }

  lemma NobodyOK(s: State)
    requires s.origin == map[] && s.workers == map[] && s.creators == map[] && s.cancellers == map[]
    requires s.published == [] && s.tables.jobs == map[] && s.tables.keys == map[]
    ensures WorkersOK(s) && RequestsOK(s)
  {
  }

  lemma InitialOK()
    ensures Inv(Initial())
  {
    NoRowsOK(Initial().tables);
    NobodyOK(Initial());
  }

  // The invariant holds after every run, from any state that satisfies it.
  lemma {:induction false} RunKeeps(s: State, events: seq<Event>)
    requires Inv(s)
    ensures Inv(Run(s, events))
    decreases |events|
  {
    if events == [] {
    } else {
      StepKeeps(s, events[0]);
      RunKeeps(Next(s, events[0]), events[1..]);
    }
  }
}
