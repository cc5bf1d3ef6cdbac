/**
 internal/repository/jobs.go: the repository whose methods change the tables in
 place. Each method is proved against the statement's function in Store; `fault`
 says how the connection treats the call.
 */
module Repository {
  import opened GoTypes
  import opened Domain
  import opened RequestHash
  import opened Store

  class JobRepository {
    var jobs: map<Uuid, JobRow>
    var attempts: map<Uuid, AttemptRow>
    var attemptIndex: map<(Uuid, nat), Uuid>
    var artifacts: map<(Uuid, GoString), ArtifactRow>
    var keys: map<GoString, KeyRow>

    constructor ()
      ensures View() == Tables(map[], map[], map[], map[], map[])
    {
      jobs, attempts, attemptIndex, artifacts, keys := map[], map[], map[], map[], map[];
    }

    function View(): Tables
      reads this
    {
      Tables(jobs, attempts, attemptIndex, artifacts, keys)
    }

    // Rolls back to, or picks up, rows another transaction left.
    method Become(t: Tables)
      modifies this
      ensures View() == t
    {
      jobs, attempts, attemptIndex, artifacts, keys := t.jobs, t.attempts, t.attemptIndex, t.artifacts, t.keys;
    }

    method GetJob(id: Uuid, fault: Fault) returns (r: Reply<JobRow>)
      ensures r == Store.GetJob(View(), id, fault)
    {
      if !fault.Clean? {
        return Fail(Unavailable);
      }
      if id !in jobs {
        return Fail(NotFound);
      }
      return Ok(jobs[id]);
    }

    // "Row gone" or "status changed", after a guarded update matched nothing.
    method ClassifyMissingUpdate(id: Uuid) returns (e: StoreError)
      ensures e == if id in jobs then Conflict else NotFound
    {
      if id !in jobs {
        return NotFound;
      }
      return Conflict;
    }

    method UpdateJobStatus(id: Uuid, from: JobStatus, upd: JobUpdate, fault: Fault) returns (r: Reply<JobRow>)
      modifies this
      ensures (View(), r) == Store.UpdateJobStatus(old(View()), id, from, upd, fault)
    {
      if !CanTransition(from, upd.to) {
        return Fail(InvalidTransition);
      }
      if fault.Dropped? {
        return Fail(Unavailable);
      }
      if id in jobs && jobs[id].status == from {
        jobs := jobs[id := ApplyUpdate(jobs[id], upd)];
        r := Ok(jobs[id]);
      } else {
        var e := ClassifyMissingUpdate(id);
        r := Fail(e);
      }
      if fault.LostReply? {
        r := Fail(Unavailable);
      }
    }

    /** The claim: the job row is updated first and the attempt inserted second;
        a failed insert rolls the update back. */
    method BeginAttempt(id: Uuid, attemptId: Uuid, fault: Fault) returns (r: Reply<JobRow>)
      modifies this
      ensures (View(), r) == Store.BeginAttempt(old(View()), id, attemptId, fault)
    {
      if fault.Dropped? {
        return Fail(Unavailable);
      }
      var start := View();
      if id !in jobs || jobs[id].status != Queued {
        var e := ClassifyMissingUpdate(id);
        return Fail(if fault.LostReply? then Unavailable else e);
      }
      var row := jobs[id].(status := JobStatus.Processing, attemptCount := jobs[id].attemptCount + 1);
      jobs := jobs[id := row];
      if attemptId in attempts || (id, row.attemptCount) in attemptIndex {
        Become(start);
        return Fail(Unavailable);
      }
      attempts := attempts[attemptId := AttemptRow(id, row.attemptCount, Running)];
      attemptIndex := attemptIndex[(id, row.attemptCount) := attemptId];
      return if fault.LostReply? then Fail(Unavailable) else Ok(row);
    }

    method FinishAttempt(attemptId: Uuid, status: AttemptStatus, fault: Fault) returns (r: Reply<()>)
      modifies this
      ensures (View(), r) == Store.FinishAttempt(old(View()), attemptId, status, fault)
    {
      if fault.Dropped? {
        return Fail(Unavailable);
      }
      if attemptId in attempts {
        attempts := attempts[attemptId := attempts[attemptId].(status := status)];
        r := Ok(());
      } else {
        r := Fail(NotFound);
      }
      if fault.LostReply? {
        r := Fail(Unavailable);
      }
    }

    method AddArtifact(id: Uuid, key: GoString, row: ArtifactRow, fault: Fault) returns (r: Reply<()>)
      modifies this
      ensures (View(), r) == Store.AddArtifact(old(View()), id, key, row, fault)
    {
      if fault.Dropped? || id !in jobs {
        return Fail(Unavailable);
      }
      artifacts := artifacts[(id, key) := row];
      return if fault.LostReply? then Fail(Unavailable) else Ok(());
    }

    /** The transaction of CreateJob: insert the job, then claim the key; if the
        key is taken the whole transaction, job row included, is rolled back. */
    method InsertJob(p: NewJob, key: GoString, hash: Digest, fault: Fault) returns (r: Reply<Insertion>)
      modifies this
      ensures (View(), r) == Store.InsertJob(old(View()), p, key, hash, fault)
    {
      if fault.Dropped? || p.id in jobs || p.maxAttempts < 1 {
        return Fail(Unavailable);
      }
      var start := View();
      jobs := jobs[p.id := FreshRow(p)];
      r := Ok(Inserted(FreshRow(p)));
      if key != [] {
        if key in keys {
          Become(start);
          r := Ok(KeyTaken);
        } else {
          keys := keys[key := KeyRow(p.id, hash)];
        }
      }
      if fault.LostReply? {
        r := Fail(Unavailable);
      }
    }

    method LookupKey(key: GoString, hash: Digest, fault: Fault) returns (r: Reply<Uuid>)
      ensures r == Store.ResolveKey(View(), key, hash, fault)
    {
      if !fault.Clean? || key !in keys {
        return Fail(Unavailable);
      }
      if keys[key].hash != hash {
        return Fail(IdempotencyConflict);
      }
      return Ok(keys[key].job);
    }
  }
}
