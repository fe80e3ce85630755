/** Recording the result of another job with the same fingerprint (_save_reused_result of
    reliable_worker.py) in the DynamoDB job repository: it works exactly for a job that was
    never claimed, and never becomes possible for one that was. */
module ReusedResults {
  import opened Entities
  import opened ControlTable
  import opened JobCoherence
  import opened Protocol
  import opened DocumentHistory
  import opened RunBuilding
  import TokenReuse

  /** The job as the result of another one; its own token stays. */
  function Reusing(job: Job, result: Job, at: int): Job {
    job.(status := result.status, chunksCreated := result.chunksCreated, vectorsCreated := result.vectorsCreated,
         errorCode := result.errorCode, fingerprint := result.fingerprint, generation := result.generation,
         completedAt := if result.completedAt.Some? then result.completedAt else Some(at))
  }

  /** Job a is stored and not finished, and its fingerprint belongs to job b, which is. */
  predicate DoneByAnother(t: Table, a: Job, b: Job) {
    && a.Key() in t.jobs && t.jobs[a.Key()] == a && a.status != Succeeded
    && b.Key() in t.jobs && t.jobs[b.Key()] == b && b.status == Succeeded
    && b.tenant == a.tenant && b.id != a.id
    && b.Fenced() && b.MarkerOf() in t.markers && t.markers[b.MarkerOf()] == b.AsMarker()
  }

  lemma RecordedIffUnclaimed(t: Table, a: Job, b: Job, at: int)
    requires DoneByAnother(t, a, b)
    ensures SaveIsRecorded(t, Reusing(a, b, at)) <==> a.fencingToken.None?
  {
    var reusing := Reusing(a, b, at);
    assert reusing.Key() == a.Key() && t.jobs[a.Key()] != reusing;
    if a.fencingToken.Some? {
      assert reusing.Fenced() && reusing.MarkerOf() == b.MarkerOf();
      assert t.markers[b.MarkerOf()].job != reusing.id;
    }
  }

  /** When find_by_fingerprint answers with the finished job of somebody else, in any table
      that the writes of the repositories can reach, its result is recorded exactly for a job
      without a token of its own. */
  lemma ReuseIsRecordedForUnclaimedJobsOnly(ws: seq<Write>, k: MarkerKey, a: Job, b: Job, at: int)
    requires AllWellFormed(ws) && k.tenant == a.tenant
    requires var t := Run(EMPTY_TABLE, ws);
             && a.Key() in t.jobs && t.jobs[a.Key()] == a && a.status != Succeeded
             && FindByFingerprint(t, k) == Found(b) && b.status == Succeeded && b.id != a.id
    ensures DoneByAnother(Run(EMPTY_TABLE, ws), a, b)
    ensures SaveIsRecorded(Run(EMPTY_TABLE, ws), Reusing(a, b, at)) <==> a.fencingToken.None?
  {
    var t := Run(EMPTY_TABLE, ws);
    EmptyIsCoherent();
    RunKeepsCoherence(EMPTY_TABLE, ws);
    LookupFindsTheOwner(t, k);
    RecordedIffUnclaimed(t, a, b, at);
  }

  // ---------------------------------------------------------------- repeated deliveries

  lemma FencedAfterWrite(t: Table, w: Write, k: JobKey)
    requires WellFormed(w) && k in t.jobs && t.jobs[k].fencingToken.Some? && Coherent(t)
    ensures k in Apply(t, w).jobs && Apply(t, w).jobs[k].fencingToken.Some?
  {
    assert JobCoherent(t, k);
  }

  /** A token, once a job has one, is never taken from it. */
  lemma {:induction false} FencedStaysFenced(t: Table, ws: seq<Write>, k: JobKey)
    requires AllWellFormed(ws) && Coherent(t) && k in t.jobs && t.jobs[k].fencingToken.Some?
    ensures k in Run(t, ws).jobs && Run(t, ws).jobs[k].fencingToken.Some?
    decreases |ws|
  {
    if ws != [] {
      var before := ws[..|ws| - 1];
      FencedStaysFenced(t, before, k);
      RunKeepsCoherence(t, before);
      FencedAfterWrite(Run(t, before), ws[|ws| - 1], k);
    }
  }

  /** Whatever is written afterwards, each further delivery of the message meets the same
      refusal: while the job is not finished, no result of its fingerprint's owner can be
      recorded for it. */
  lemma ReuseStaysRefused(t: Table, a: Job, b: Job, ws: seq<Write>, result: Job, at: int)
    requires Coherent(t) && DoneByAnother(t, a, b) && a.fencingToken.Some? && AllWellFormed(ws)
    ensures a.Key() in Run(t, ws).jobs && b.MarkerOf() in Run(t, ws).markers
    ensures Run(t, ws).markers[b.MarkerOf()] == b.AsMarker()
    ensures var a' := Run(t, ws).jobs[a.Key()];
            a'.status != Succeeded && result.fingerprint == b.fingerprint && result.status == Succeeded ==>
              !SaveIsRecorded(Run(t, ws), Reusing(a', result, at))
  {
    FencedStaysFenced(t, ws, a.Key());
    SucceededIsAbsorbing(t, ws, b.MarkerOf());
    RunKeepsCoherence(t, ws);
    var t' := Run(t, ws);
    assert JobCoherent(t', a.Key());
    var a' := t'.jobs[a.Key()];
    if a'.status != Succeeded && result.fingerprint == b.fingerprint && result.status == Succeeded {
      var reusing := Reusing(a', result, at);
      assert reusing.Fenced() && reusing.MarkerOf() == b.MarkerOf();
      assert t'.markers[b.MarkerOf()].job != reusing.id;
    }
  }

  // ---------------------------------------------------------------- a run that gets there

  /** The first job fails with a code that is retried, the second one publishes what both
      were to build. */
  lemma FailThenPublish(d: Document, first: Command, second: Command) returns (s: State, a: Attempt, b: Attempt)
    requires New(d) && d.Key() == DocumentKey(first.tenant, first.document)
    requires second == first.(job := second.job) && second.job != first.job
    ensures TokenReuse.Reachable(s)
    ensures a.command == first && b.command == second && b.token == 1 && a.Fingerprint() == b.Fingerprint()
    ensures RunningJob(a).Key() in s.shared.table.jobs
    ensures s.shared.table.jobs[RunningJob(a).Key()] == FailedJob(a, "INGESTION_FAILED", 0)
    ensures RunningJob(b).Key() in s.shared.table.jobs
    ensures s.shared.table.jobs[RunningJob(b).Key()] == SucceededJob(b, 1, 1)
    ensures MarkerKeyOf(b.Fingerprint()) in s.shared.table.markers
    ensures s.shared.table.markers[MarkerKeyOf(b.Fingerprint())] == Marker(second.job, Succeeded, 1)
  {
    var uploaded := UploadedDocument(d);
    a := Attempt(first, uploaded, 1, 0);
    var failed := uploaded.(status := DocumentFailed, updatedAt := 0, revision := 3);
    b := Attempt(second, failed, 1, 1);
    assert a.Fingerprint() == b.Fingerprint();
    s := Upload(RestartsAfterRelease, d);
    s := FailFirst(s, uploaded, a);
    s := PublishSecond(s, failed, a, b);
  }

  /** The first job has failed and given its lease back. */
  predicate FirstFailed(s: State, failed: Document, a: Attempt) {
    && 1 !in s.workers
    && failed.Key() in s.shared.table.documents && s.shared.table.documents[failed.Key()] == failed
    && failed.status == DocumentFailed && failed.activeGeneration.None? && failed.lastFencingToken == 0
    && s.shared.table.leases == map[]
    && s.shared.table.jobs == map[RunningJob(a).Key() := FailedJob(a, "INGESTION_FAILED", 0)]
    && s.shared.table.markers == map[MarkerKeyOf(a.Fingerprint()) := Marker(a.command.job, JobStatus.Failed, 1)]
  }

  lemma FailFirst(s: State, d: Document, a: Attempt) returns (s': State)
    requires TokenReuse.Reachable(s) && Waiting(s, d) && a == Attempt(a.command, d, 1, 0)
    requires d.Key() == DocumentKey(a.command.tenant, a.command.document)
    ensures TokenReuse.Reachable(s')
    ensures FirstFailed(s', d.(status := DocumentFailed, updatedAt := 0, revision := d.revision + 2), a)
  {
    s' := TokenReuse.TakeAndPrepare(s, 0, a.command, d, 0);
    var t := s'.shared.table;
    assert t.documents[d.Key()] == MarkedDocument(a);
    assert t.leases == map[d.LeaseOf() := Lease(a.command.job, 1, a.command.execution, 1)];
    assert t.jobs == map[RunningJob(a).Key() := RunningJob(a)];
    assert t.markers == map[MarkerKeyOf(a.Fingerprint()) := Marker(a.command.job, Running, 1)];
    s' := TokenReuse.GiveUp(s', 0, s.workers, a, d.revision + 1);
    assert s'.shared.table.leases == map[];
  }

  lemma PublishSecond(s: State, failed: Document, a: Attempt, b: Attempt) returns (s': State)
    requires TokenReuse.Reachable(s) && FirstFailed(s, failed, a) && b == Attempt(b.command, failed, 1, 1)
    requires failed.Key() == DocumentKey(b.command.tenant, b.command.document)
    requires a.Fingerprint() == b.Fingerprint() && b.command.job != a.command.job
    ensures TokenReuse.Reachable(s')
    ensures s'.shared.table.jobs == s.shared.table.jobs[RunningJob(b).Key() := SucceededJob(b, 1, 1)]
    ensures MarkerKeyOf(b.Fingerprint()) in s'.shared.table.markers
    ensures s'.shared.table.markers[MarkerKeyOf(b.Fingerprint())] == Marker(b.command.job, Succeeded, 1)
  {
    var leased := Leased(RestartsAfterRelease, s.shared, 1, Acquiring(b.command, failed), 1, 2);
    PreparedIsReady(leased.table, b);
    s' := TokenReuse.TakeAndPrepare(s, 1, b.command, failed, 1);
    BuiltIsActivatable(s'.shared, b);
    s' := BuildCandidate(RestartsAfterRelease, INITIAL_STATE, s', 1, s.workers, b);
    CommittedJobs(s.shared.table, s'.shared, b);
    s' := CommitCandidate(RestartsAfterRelease, INITIAL_STATE, s', 1, s.workers, b, CandidateOf(b));
  }

  lemma CommittedJobs(t: Table, sh: Shared, b: Attempt)
    requires Activatable(sh.table, b, CandidateOf(b)) && b.token == 1
    requires sh.table.jobs == t.jobs[RunningJob(b).Key() := RunningJob(b)]
    requires sh.table.markers == t.markers[MarkerKeyOf(b.Fingerprint()) := Marker(b.command.job, Running, 1)]
    ensures var t' := Committed(sh, b, CandidateOf(b)).table;
            && t'.jobs == t.jobs[RunningJob(b).Key() := SucceededJob(b, 1, b.startedAt)]
            && MarkerKeyOf(b.Fingerprint()) in t'.markers
            && t'.markers[MarkerKeyOf(b.Fingerprint())] == Marker(b.command.job, Succeeded, 1)
  {
  }

  /** Whatever the document and the command: there is a run at whose end the job of a failed
      attempt, which will be delivered again, has a fingerprint that another job published,
      and the result of that job cannot be recorded for it. */
  lemma ReuseMayBeRefused(d: Document, first: Command, second: Command, at: int) returns (r: Trace, a: Job, b: Job)
    requires New(d) && d.Key() == DocumentKey(first.tenant, first.document)
    requires second == first.(job := second.job) && second.job != first.job
    ensures IsRun(RestartsAfterRelease, r) && DoneByAnother(Last(r).shared.table, a, b)
    ensures a.id == first.job && b.id == second.job
    ensures a.status == JobStatus.Failed && a.errorCode == Some("INGESTION_FAILED") && a.fencingToken.Some?
    ensures a.fingerprint == b.fingerprint
    ensures !SaveIsRecorded(Last(r).shared.table, Reusing(a, b, at))
  {
    var s, x, y;
    s, x, y := FailThenPublish(d, first, second);
    a, b := FailedJob(x, "INGESTION_FAILED", 0), SucceededJob(y, 1, 1);
    assert x.Fingerprint().tenant == y.Fingerprint().tenant;
    r := RunTo(RestartsAfterRelease, s);
    RecordedIffUnclaimed(s.shared.table, a, b, at);
  }
}
