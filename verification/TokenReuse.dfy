/** What the hypothesis of the publication theorems is needed for: a run with the DynamoDB
    lease repository in which a document ends up pointing to a generation without chunks.

    Worker 0 stalls in its cleanup until its lease expires.  Worker 1, a redelivery of the
    same job, takes over with token 2, fails and releases, which deletes the lease item.
    Worker 2, another redelivery, is granted token 1 again, so that it builds a generation of
    the very same id, and the delayed cleanup of worker 0 deletes it under its hands. */
module TokenReuse {
  import opened Entities
  import opened ControlTable
  import opened Protocol
  import opened DocumentHistory
  import opened RunBuilding
  import ProtocolInvariant
  import PublicationTheorems
  import Republishing

  /** Reachable from the beginning. */
  ghost predicate Reachable(s: State) {
    Leads(RestartsAfterRelease, INITIAL_STATE, s)
  }

  /** Take up the command, and take the lease for one unit of time. */
  lemma Take(s: State, w: nat, command: Command, d: Document, now: int) returns (s': State)
    requires Reachable(s) && w !in s.workers && d.Key() == DocumentKey(command.tenant, command.document)
    requires d.Key() in s.shared.table.documents && s.shared.table.documents[d.Key()] == d && Ingestable(d)
    requires AcquireAllowed(s.shared.table, d.LeaseOf(), now)
    ensures Reachable(s')
    ensures var a := Attempt(command, d, TokenAfterItem(s.shared.table, d.LeaseOf()), now);
            s' == State(Leased(RestartsAfterRelease, s.shared, w, Acquiring(command, d), now, now + 1),
                        s.workers[w := Claiming(a)])
  {
    s' := Arrive(RestartsAfterRelease, INITIAL_STATE, s, w, command, d);
    s' := TakeLease(RestartsAfterRelease, INITIAL_STATE, s', w, s.workers, Acquiring(command, d), now, now + 1);
  }

  lemma TakeAndPrepare(s: State, w: nat, command: Command, d: Document, now: int) returns (s': State)
    requires Reachable(s) && w !in s.workers && d.Key() == DocumentKey(command.tenant, command.document)
    requires d.Key() in s.shared.table.documents && s.shared.table.documents[d.Key()] == d && Ingestable(d)
    requires AcquireAllowed(s.shared.table, d.LeaseOf(), now)
    requires ClaimAllowed(s.shared.table, RunningJob(
                        Attempt(command, d, TokenAfterItem(s.shared.table, d.LeaseOf()), now)))
    ensures Reachable(s')
    ensures var a := Attempt(command, d, TokenAfterItem(s.shared.table, d.LeaseOf()), now);
            var leased := Leased(RestartsAfterRelease, s.shared, w, Acquiring(command, d), now, now + 1);
            s' == State(WithTable(leased, Prepared(leased.table, a)),
                        s.workers[w := Preparing(a, MarkedDocument(a).revision)])
  {
    var a := Attempt(command, d, TokenAfterItem(s.shared.table, d.LeaseOf()), now);
    s' := Take(s, w, command, d, now);
    s' := PrepareAttempt(RestartsAfterRelease, INITIAL_STATE, s', w, s.workers, a);
  }

  /** The table once an attempt has failed, restored the document and released. */
  function GivenUp(t: Table, a: Attempt, current: Document): Table {
    Release(PutJob(SaveDocument(t, current.(status := DocumentFailed, updatedAt := a.startedAt), current.revision),
                   FailedJob(a, "INGESTION_FAILED", a.startedAt)),
            a.document.LeaseOf())
  }

  lemma GiveUp(s: State, w: nat, base: map<nat, Worker>, a: Attempt, revision: nat) returns (s': State)
    requires Reachable(s) && s.workers == base[w := Preparing(a, revision)]
    requires var t := s.shared.table; var key := a.document.Key();
             && key in t.documents && t.documents[key].Key() == key
             && t.documents[key].status == Processing && t.documents[key].activeGeneration.None?
             && SaveAllowed(t, FailedJob(a, "INGESTION_FAILED", a.startedAt))
             && ReleaseAllowed(t, a.document.LeaseOf(), a.command.job, a.token)
    ensures Reachable(s')
    ensures var current := s.shared.table.documents[a.document.Key()];
            s' == State(WithTable(s.shared, GivenUp(s.shared.table, a, current)),
                        base[w := Ended(Some(a), Some(a.Generation()))])
  {
    var current := s.shared.table.documents[a.document.Key()];
    s' := RaiseAndRead(s, w, base, a, revision);
    s' := Step(RestartsAfterRelease, INITIAL_STATE, s', w, base, SavingRestored(a, current),
               Recovery(SaveRestored(a.startedAt)));
    s' := SaveFailureAndLeave(s', w, base, a);
  }

  lemma Fail(s: State, w: nat, base: map<nat, Worker>, a: Attempt, revision: nat) returns (s': State)
    requires Reachable(s) && s.workers == base[w := Preparing(a, revision)]
    ensures Reachable(s') && s' == State(s.shared, base[w := Cleaning(a)])
  {
    s' := Step(RestartsAfterRelease, INITIAL_STATE, s, w, base, Preparing(a, revision), Construction(Raise));
  }

  lemma RaiseAndRead(s: State, w: nat, base: map<nat, Worker>, a: Attempt, revision: nat) returns (s': State)
    requires Reachable(s) && s.workers == base[w := Preparing(a, revision)]
    requires var t := s.shared.table; var key := a.document.Key();
             && key in t.documents && t.documents[key].status == Processing && t.documents[key].activeGeneration.None?
    ensures Reachable(s')
    ensures s' == State(s.shared, base[w := SavingRestored(a, s.shared.table.documents[a.document.Key()])])
  {
    s' := Fail(s, w, base, a, revision);
    s' := Step(RestartsAfterRelease, INITIAL_STATE, s', w, base, Cleaning(a), Recovery(CandidateDone));
    s' := Step(RestartsAfterRelease, INITIAL_STATE, s', w, base, FailingGeneration(a), Recovery(FailGeneration(false)));
    s' := Step(RestartsAfterRelease, INITIAL_STATE, s', w, base, Restoring(a), Recovery(ReadCurrent));
  }

  lemma SaveFailureAndLeave(s: State, w: nat, base: map<nat, Worker>, a: Attempt) returns (s': State)
    requires Reachable(s) && s.workers == base[w := SavingFailure(a)]
    requires SaveAllowed(s.shared.table, FailedJob(a, "INGESTION_FAILED", a.startedAt))
    requires ReleaseAllowed(s.shared.table, a.document.LeaseOf(), a.command.job, a.token)
    ensures Reachable(s')
    ensures var failed := PutJob(s.shared.table, FailedJob(a, "INGESTION_FAILED", a.startedAt));
            s' == State(WithTable(s.shared, Release(failed, a.document.LeaseOf())),
                        base[w := Ended(Some(a), Some(a.Generation()))])
  {
    s' := Step(RestartsAfterRelease, INITIAL_STATE, s, w, base, SavingFailure(a),
               Recovery(SaveFailure("INGESTION_FAILED", a.startedAt)));
    s' := Step(RestartsAfterRelease, INITIAL_STATE, s', w, base, Releasing(a, Some(a.Generation())),
               Leaving(ReleaseLease));
  }

  // ---------------------------------------------------------------- the run

  /** Worker 0 has begun the first attempt and stands before its cleanup. */
  predicate WorkerZeroCleans(s: State, d: Document, command: Command, first: Attempt) {
    && 0 in s.workers && s.workers[0] == Cleaning(first) && 2 !in s.workers
    && first.command == command && first.token == 1 && first.Generation() in s.shared.attempts
    && FingerprintOf(first.document, command) == FingerprintOf(d, command)
    && d.Key() == DocumentKey(command.tenant, command.document)
    && d.Key() in s.shared.table.documents && s.shared.table.documents[d.Key()] == d
    && d.activeGeneration.None? && d.lastFencingToken == 0
  }

  /** Worker 0 stalls in its cleanup; its lease runs until time 1. */
  predicate Stalled(s: State, d: Document, command: Command, first: Attempt) {
    && WorkerZeroCleans(s, d, command, first) && 1 !in s.workers && d.status == Processing
    && FirstHolds(s.shared.table, first)
  }

  predicate FirstHolds(t: Table, first: Attempt) {
    && first.document.LeaseOf() in t.leases
    && t.leases[first.document.LeaseOf()] == Lease(first.command.job, 1, first.command.execution, 1)
    && RunningJob(first).Key() in t.jobs && t.jobs[RunningJob(first).Key()] == RunningJob(first)
    && MarkerKeyOf(first.Fingerprint()) in t.markers
    && t.markers[MarkerKeyOf(first.Fingerprint())] == Marker(first.command.job, Running, 1)
  }

  lemma Stall(s: State, d: Document, command: Command) returns (s': State, marked: Document, first: Attempt)
    requires Reachable(s) && Waiting(s, d) && d.Key() == DocumentKey(command.tenant, command.document)
    ensures Reachable(s') && Stalled(s', marked, command, first) && marked.Key() == d.Key()
  {
    first := Attempt(command, d, 1, 0);
    marked := MarkedDocument(first);
    s' := FailFirst(s, d, command);
    FirstIsMarked(s.shared, d, command);
  }

  lemma FailFirst(s: State, d: Document, command: Command) returns (s': State)
    requires Reachable(s) && Waiting(s, d) && d.Key() == DocumentKey(command.tenant, command.document)
    ensures Reachable(s')
    ensures var leased := Leased(RestartsAfterRelease, s.shared, 0, Acquiring(command, d), 0, 1);
            var first := Attempt(command, d, 1, 0);
            s' == State(WithTable(leased, Prepared(leased.table, first)), s.workers[0 := Cleaning(first)])
  {
    var first := Attempt(command, d, 1, 0);
    s' := TakeAndPrepare(s, 0, command, d, 0);
    s' := Fail(s', 0, s.workers, first, MarkedDocument(first).revision);
  }

  lemma FirstIsMarked(sh: Shared, d: Document, command: Command)
    requires sh.table.leases == map[] && d.activeGeneration.None?
    ensures var first := Attempt(command, d, 1, 0);
            var leased := Leased(RestartsAfterRelease, sh, 0, Acquiring(command, d), 0, 1);
            var t := Prepared(leased.table, first);
            && first.Generation() in leased.attempts
            && d.Key() in t.documents && t.documents[d.Key()] == MarkedDocument(first)
            && FirstHolds(t, first)
  {
  }

  /** Worker 1 came and went: the job has failed, the lease item is gone. */
  predicate TakenOver(s: State, d: Document, command: Command, first: Attempt) {
    && WorkerZeroCleans(s, d, command, first) && d.status == DocumentFailed
    && d.LeaseOf() !in s.shared.table.leases
    && MayBeReclaimed(s.shared.table, first)
  }

  /** The job of the attempt failed, and its marker says so. */
  predicate MayBeReclaimed(t: Table, a: Attempt) {
    && RunningJob(a).Key() in t.jobs && t.jobs[RunningJob(a).Key()].status == Failed
    && t.jobs[RunningJob(a).Key()].fingerprint == Some(a.Fingerprint())
    && MarkerKeyOf(a.Fingerprint()) in t.markers && t.markers[MarkerKeyOf(a.Fingerprint())].status == Failed
  }

  lemma TakeOver(s: State, d: Document, command: Command, first: Attempt) returns (s': State, failed: Document)
    requires Reachable(s) && Stalled(s, d, command, first)
    ensures Reachable(s') && TakenOver(s', failed, command, first) && failed.Key() == d.Key()
  {
    var second := Attempt(command, d, 2, 1);
    assert second.Fingerprint() == first.Fingerprint();
    s' := TakeAndPrepare(s, 1, command, d, 1);
    s' := GiveUp(s', 1, s.workers, second, d.revision + 1);
    failed := d.(status := DocumentFailed, updatedAt := 1, revision := d.revision + 2);
    assert WorkerZeroCleans(s', failed, command, first);
    assert MayBeReclaimed(s'.shared.table, first);
  }

  // ---------------------------------------------------------------- where the index can be lost

  /** The document points to a generation of one chunk and one vector, neither of which is
      stored. */
  predicate Lost(sh: Shared, k: DocumentKey, g: GenerationId) {
    && k in sh.table.documents && sh.table.documents[k].activeGeneration == Some(g)
    && GenerationKeyOf(g) in sh.table.generations && sh.table.generations[GenerationKeyOf(g)].chunkCount == 1
    && StoredIn(sh.chunks, g) == {} && StoredIn(sh.vectors, g) == {}
  }

  /** Worker v has begun, or may begin, to delete the generation that worker w is about to
      build. */
  predicate DeletionIsPending(source: TokenSource, s: State, v: nat, w: nat, now: int) {
    && v in s.workers && w in s.workers && v != w && s.workers[w].Acquiring?
    && Doomed(s.workers[v]) == Some(NextAttempt(source, s.shared, s.workers[w], now).Generation())
  }

  /** Worker v carries out what it has begun. */
  lemma DeleteAll(source: TokenSource, from: State, s: State, v: nat, g: GenerationId) returns (s': State)
    requires Leads(source, from, s) && v in s.workers && Doomed(s.workers[v]) == Some(g)
    ensures Leads(source, from, s') && s'.shared.table == s.shared.table
    ensures StoredIn(s'.shared.chunks, g) == {} && StoredIn(s'.shared.vectors, g) == {}
  {
    var x := s.workers[v];
    assert s.workers == s.workers[v := x];
    s' := Step(source, from, s, v, s.workers, x,
               Leaving(LateDelete(StoredIn(s.shared.chunks, g), StoredIn(s.shared.vectors, g))));
  }

  lemma CommittedPointsToIt(sh: Shared, a: Attempt)
    requires Activatable(Filled(sh, a).table, a, CandidateOf(a))
    ensures var t := Committed(Filled(sh, a), a, CandidateOf(a)).table;
            && a.document.Key() in t.documents
            && t.documents[a.document.Key()].activeGeneration == Some(a.Generation())
            && GenerationKeyOf(a.Generation()) in t.generations
            && t.generations[GenerationKeyOf(a.Generation())].chunkCount == 1
  {
  }

  /** In every state: a worker that may take its lease and publish, and whose generation
      another worker has still to delete, can publish it and lose all of it. */
  lemma PendingDeletionLosesTheIndex(source: TokenSource, s: State, v: nat, w: nat, now: int, expiresAt: int)
    returns (s': State)
    requires Republishing.AboutToTry(source, s, w, now, expiresAt) && DeletionIsPending(source, s, v, w, now)
    requires var d := s.workers[w].document; NextToken(source, s.shared, d.LeaseOf()) > d.lastFencingToken
    ensures Leads(source, Next(source, s, Republishing.Try(w, now, expiresAt)), s')
    ensures var x := s.workers[w];
            Lost(s'.shared, x.document.Key(), NextAttempt(source, s.shared, x, now).Generation())
  {
    var x := s.workers[w];
    var a := NextAttempt(source, s.shared, x, now);
    var tried := Next(source, s, Republishing.Try(w, now, expiresAt));
    LeadsToItself(source, tried);
    assert s.workers == s.workers[w := x];
    s' := Republishing.Build(source, tried, s, w, s.workers, x, now, expiresAt);
    Republishing.UndisturbedIsActivatable(source, s.shared, w, x, now, expiresAt);
    var leased := Leased(source, s.shared, w, x, now, expiresAt);
    CommittedPointsToIt(WithTable(leased, Prepared(leased.table, a)), a);
    s' := CommitCandidate(source, tried, s', w, s.workers, a, CandidateOf(a));
    s' := DeleteAll(source, tried, s', v, a.Generation());
  }

  // ---------------------------------------------------------------- the loss

  lemma ReclaimIsAllowed(t: Table, first: Attempt, third: Attempt)
    requires MayBeReclaimed(t, first)
    requires third.Fingerprint() == first.Fingerprint() && third.command.job == first.command.job
    ensures ClaimAllowed(t, RunningJob(third))
  {
    assert third.document.tenant == third.Fingerprint().tenant == first.Fingerprint().tenant == first.document.tenant;
  }

  /** Worker 2 arrives, and would be granted token 1 again. */
  lemma Retake(s: State, d: Document, command: Command, first: Attempt) returns (asking: State)
    requires Reachable(s) && TakenOver(s, d, command, first)
    ensures Reachable(asking) && asking == State(s.shared, s.workers[2 := Acquiring(command, d)])
    ensures Republishing.AboutToTry(RestartsAfterRelease, asking, 2, 2, 3)
    ensures DeletionIsPending(RestartsAfterRelease, asking, 0, 2, 2)
    ensures NextAttempt(RestartsAfterRelease, asking.shared, asking.workers[2], 2).Generation() == first.Generation()
  {
    asking := Arrive(RestartsAfterRelease, INITIAL_STATE, s, 2, command, d);
    var third := Attempt(command, d, 1, 2);
    assert third.Fingerprint() == first.Fingerprint();
    ReclaimIsAllowed(s.shared.table, first, third);
  }

  /** The states of the run around its repeating event. */
  lemma LoseTheIndex(d: Document, command: Command) returns (asking: State, e: Event, s: State, g: GenerationId)
    requires New(d) && d.Key() == DocumentKey(command.tenant, command.document)
    ensures Reachable(asking) && EventEnabled(asking, e) && !NonRepeating(RestartsAfterRelease, asking, e)
    ensures Leads(RestartsAfterRelease, Next(RestartsAfterRelease, asking, e), s) && Lost(s.shared, d.Key(), g)
  {
    var current, first;
    s := Upload(RestartsAfterRelease, d);
    s, current, first := Stall(s, UploadedDocument(d), command);
    s, current := TakeOver(s, current, command, first);
    asking := Retake(s, current, command, first);
    e := Republishing.Try(2, 2, 3);
    g := first.Generation();
    s := PendingDeletionLosesTheIndex(RestartsAfterRelease, asking, 0, 2, 2, 3);
  }

  /** Whatever the document and the command: with the DynamoDB lease repository there is a
      run of the protocol at whose end the document points to a generation of one chunk and
      one vector, neither of which is stored.  Its event n repeats a generation. */
  lemma DynamoCanLoseTheActiveGeneration(d: Document, command: Command) returns (r: Trace, g: GenerationId, n: nat)
    requires New(d) && d.Key() == DocumentKey(command.tenant, command.document)
    ensures IsRun(RestartsAfterRelease, r)
    ensures Lost(Last(r).shared, d.Key(), g) && !ProtocolInvariant.Complete(Last(r).shared, g)
    ensures n < |r.events| && !PublicationTheorems.FreshGeneration(RestartsAfterRelease, r.states[n], r.events[n])
    ensures !PublicationTheorems.NoGenerationTwice(RestartsAfterRelease, r, |r.events|)
  {
    var asking, e, s;
    asking, e, s, g := LoseTheIndex(d, command);
    r := RunTo(RestartsAfterRelease, asking);
    n := |r.events|;
    ExtendIsRun(RestartsAfterRelease, r, e);
    var repeated := Extend(RestartsAfterRelease, r, e);
    r := ContinueTo(RestartsAfterRelease, repeated, s);
    assert r.states[n] == repeated.states[n] == asking && r.events[n] == repeated.events[n] == e;
    assert 0 !in StoredIn(s.shared.chunks, g);
  }
}
