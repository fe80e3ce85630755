/** When a document version can be published again: exactly when the token its next attempt is
    granted is newer than the document's last one.  The durable counter always grants such a
    token; the DynamoDB repository does not, once the lease of a published version is given
    back. */
module Republishing {
  import opened Entities
  import opened ControlTable
  import opened Protocol
  import opened DocumentHistory
  import opened RunBuilding
  import ProtocolInvariant
  import PublicationTheorems
  import TableHistory

  /** Worker w asks for its lease next: the lease is free, the document is still as the worker
      read it, and the claim it will make would be granted. */
  predicate AboutToTry(source: TokenSource, s: State, w: nat, now: int, expiresAt: int) {
    && w in s.workers && s.workers[w].Acquiring?
    && var x := s.workers[w];
    && CanBegin(s.shared, x, Acquire(now, expiresAt, false))
    && x.document.Key() in s.shared.table.documents && s.shared.table.documents[x.document.Key()] == x.document
    && ClaimAllowed(s.shared.table, RunningJob(NextAttempt(source, s.shared, x, now)))
  }

  function Try(w: nat, now: int, expiresAt: int): Event {
    WorkerMoves(w, Beginning(Acquire(now, expiresAt, false)))
  }

  predicate CommitIsEnabled(s: State, w: nat) {
    EventEnabled(s, WorkerMoves(w, Publication(CommitActivation(false))))
  }

  /** Once worker w has been granted its lease, the protocol can get to a state in which its
      activation commits. */
  ghost predicate MayPublish(source: TokenSource, s: State, w: nat, now: int, expiresAt: int)
    requires AboutToTry(source, s, w, now, expiresAt)
  {
    exists s' :: Leads(source, Next(source, s, Try(w, now, expiresAt)), s') && CommitIsEnabled(s', w)
  }

  // ---------------------------------------------------------------- a token that is not newer

  /** A lease-holding worker keeps its attempt until it ends. */
  lemma MoveKeepsAttempt(source: TokenSource, w: nat, sh: Shared, x: Worker, move: Move)
    requires Enabled(sh, x, move) && x.Leased()
    ensures var x' := Act(source, w, sh, x, move).1; x'.Ended? || (x'.Leased() && x'.attempt == x.attempt)
  {
    if move.Leaving? {
      var x' := DoLeave(sh, x, move.leave).1;
      assert x' == x || x'.Ended?;
    }
  }

  lemma {:induction false} AttemptIsKept(source: TokenSource, r: Trace, i: nat, j: nat, w: nat)
    requires IsRun(source, r) && i <= j < |r.states| && w in r.states[i].workers && r.states[i].workers[w].Leased()
    ensures w in r.states[j].workers
    ensures var x, x' := r.states[i].workers[w], r.states[j].workers[w];
            x'.Ended? || (x'.Leased() && x'.attempt == x.attempt)
    decreases j - i
  {
    if i < j {
      AttemptIsKept(source, r, i, j - 1, w);
      var s, e := r.states[j - 1], r.events[j - 1];
      assert Follows(source, s, e, r.states[j]);
      if e.WorkerMoves? && e.w == w {
        if s.workers[w].Ended? {
          PublicationTheorems.GoneStaysGone(source, s, e, w);
        } else {
          MoveKeepsAttempt(source, w, s.shared, s.workers[w], e.move);
        }
      }
    }
  }

  /** An attempt whose token is not above the document's last one never publishes, in any
      run of either repository. */
  lemma StaleTokenNeverPublishes(source: TokenSource, r: Trace, i: nat, j: nat, w: nat)
    requires IsRun(source, r) && i <= j < |r.events|
    requires w in r.states[i].workers && r.states[i].workers[w].Leased()
    requires var a := r.states[i].workers[w].attempt; var documents := r.states[i].shared.table.documents;
             a.document.Key() in documents && a.token <= documents[a.document.Key()].lastFencingToken
    ensures !(r.events[j].WorkerMoves? && r.events[j].w == w
              && r.events[j].move.Publication? && r.events[j].move.publish.CommitActivation?)
  {
    AttemptIsKept(source, r, i, j, w);
    DocumentsMoveForward(source, r, i, j, r.states[i].workers[w].attempt.document.Key());
    assert Follows(source, r.states[j], r.events[j], r.states[j + 1]);
  }

  // ---------------------------------------------------------------- a newer token

  /** The shared state when worker w has built its candidate and nobody else has moved. */
  function WhenBuilt(source: TokenSource, sh: Shared, w: nat, x: Worker, now: int, expiresAt: int): Shared
    requires x.Acquiring?
  {
    var a := NextAttempt(source, sh, x, now);
    var leased := Leased(source, sh, w, x, now, expiresAt);
    Filled(WithTable(leased, Prepared(leased.table, a)), a)
  }

  lemma Build(source: TokenSource, from: State, s: State, w: nat, base: map<nat, Worker>, x: Worker,
              now: int, expiresAt: int)
    returns (s': State)
    requires AboutToTry(source, s, w, now, expiresAt) && s.workers == base[w := x]
    requires Leads(source, from, Next(source, s, Try(w, now, expiresAt)))
    ensures Leads(source, from, s')
    ensures var a := NextAttempt(source, s.shared, x, now);
            s' == State(WhenBuilt(source, s.shared, w, x, now, expiresAt), base[w := Activating(a, CandidateOf(a))])
  {
    var a := NextAttempt(source, s.shared, x, now);
    var tried := Next(source, s, Try(w, now, expiresAt));
    LeadsToItself(source, s);
    var same := TakeLease(source, s, s, w, base, x, now, expiresAt);
    assert same == tried;
    s' := PrepareAttempt(source, from, tried, w, base, a);
    s' := BuildCandidate(source, from, s', w, base, a);
  }

  /** What the activation meets when nobody else is at work. */
  lemma UndisturbedIsActivatable(source: TokenSource, sh: Shared, w: nat, x: Worker, now: int, expiresAt: int)
    requires CanBegin(sh, x, Acquire(now, expiresAt, false))
    requires x.document.Key() in sh.table.documents && sh.table.documents[x.document.Key()] == x.document
    requires NextToken(source, sh, x.document.LeaseOf()) > x.document.lastFencingToken
    ensures var a := NextAttempt(source, sh, x, now);
            Activatable(WhenBuilt(source, sh, w, x, now, expiresAt).table, a, CandidateOf(a))
  {
    var a := NextAttempt(source, sh, x, now);
    var leased := Leased(source, sh, w, x, now, expiresAt);
    PreparedIsReady(leased.table, a);
    BuiltIsActivatable(WithTable(leased, Prepared(leased.table, a)), a);
  }

  lemma NewerTokenPublishes(source: TokenSource, s: State, w: nat, now: int, expiresAt: int)
    requires AboutToTry(source, s, w, now, expiresAt)
    requires var d := s.workers[w].document; NextToken(source, s.shared, d.LeaseOf()) > d.lastFencingToken
    ensures MayPublish(source, s, w, now, expiresAt)
  {
    var x := s.workers[w];
    var tried := Next(source, s, Try(w, now, expiresAt));
    LeadsToItself(source, tried);
    assert s.workers == s.workers[w := x];
    var s' := Build(source, tried, s, w, s.workers, x, now, expiresAt);
    UndisturbedIsActivatable(source, s.shared, w, x, now, expiresAt);
    BuiltMayCommit(s', w, NextAttempt(source, s.shared, x, now));
  }

  lemma BuiltMayCommit(s: State, w: nat, a: Attempt)
    requires w in s.workers && s.workers[w] == Activating(a, CandidateOf(a))
    requires Activatable(s.shared.table, a, CandidateOf(a))
    ensures CommitIsEnabled(s, w)
  {
  }

  /** What trying leads to at once. */
  lemma TryTakesTheLease(source: TokenSource, s: State, w: nat, now: int, expiresAt: int)
    requires AboutToTry(source, s, w, now, expiresAt)
    ensures var s' := Next(source, s, Try(w, now, expiresAt));
            && w in s'.workers && s'.workers[w] == Claiming(NextAttempt(source, s.shared, s.workers[w], now))
            && s'.shared.table.documents == s.shared.table.documents
  {
  }

  // ---------------------------------------------------------------- the condition

  lemma PublishingNeedsANewerToken(source: TokenSource, r: Trace, s: State, w: nat, now: int, expiresAt: int)
    requires IsRun(source, r) && AboutToTry(source, Last(r), w, now, expiresAt)
    requires Leads(source, Next(source, Last(r), Try(w, now, expiresAt)), s) && CommitIsEnabled(s, w)
    ensures var d := Last(r).workers[w].document; NextToken(source, Last(r).shared, d.LeaseOf()) > d.lastFencingToken
  {
    var r', i, j := RunThrough(source, r, Try(w, now, expiresAt), s,
                               WorkerMoves(w, Publication(CommitActivation(false))));
    TryTakesTheLease(source, Last(r), w, now, expiresAt);
    var d := Last(r).workers[w].document;
    if NextToken(source, Last(r).shared, d.LeaseOf()) <= d.lastFencingToken {
      StaleTokenNeverPublishes(source, r', i, j, w);
    }
  }

  /** A worker that may try can publish exactly when the token that it will be granted is
      newer than the document's last one: then some continuation of the run commits its
      activation, and otherwise none does. */
  lemma PublishesIffTokenIsNewer(source: TokenSource, r: Trace, w: nat, now: int, expiresAt: int)
    requires IsRun(source, r) && AboutToTry(source, Last(r), w, now, expiresAt)
    ensures var d := Last(r).workers[w].document;
            MayPublish(source, Last(r), w, now, expiresAt)
            <==> NextToken(source, Last(r).shared, d.LeaseOf()) > d.lastFencingToken
  {
    var d := Last(r).workers[w].document;
    if NextToken(source, Last(r).shared, d.LeaseOf()) > d.lastFencingToken {
      NewerTokenPublishes(source, Last(r), w, now, expiresAt);
    }
    if MayPublish(source, Last(r), w, now, expiresAt) {
      var s :| Leads(source, Next(source, Last(r), Try(w, now, expiresAt)), s) && CommitIsEnabled(s, w);
      PublishingNeedsANewerToken(source, r, s, w, now, expiresAt);
    }
  }

  // ---------------------------------------------------------------- the DynamoDB item

  /** With the DynamoDB repository and the lease item gone, only a document that was never
      published can be. */
  lemma AfterReleaseOnlyTheUnpublished(r: Trace, w: nat, now: int, expiresAt: int)
    requires IsRun(RestartsAfterRelease, r) && AboutToTry(RestartsAfterRelease, Last(r), w, now, expiresAt)
    requires Last(r).workers[w].document.LeaseOf() !in Last(r).shared.table.leases
    ensures MayPublish(RestartsAfterRelease, Last(r), w, now, expiresAt)
            <==> Last(r).workers[w].document.lastFencingToken == 0
  {
    PublishesIffTokenIsNewer(RestartsAfterRelease, r, w, now, expiresAt);
  }

  /** The document once a waiting one has been published. */
  function FirstIndex(d: Document, command: Command): Document {
    var a := Attempt(command, d, 1, 0);
    ActivatedDocument(MarkedDocument(a), ReadyGeneration(a, 1, 0), d.revision + 1, 0)
  }

  lemma BuiltTable(sh: Shared, d: Document, command: Command)
    requires sh.table.leases == map[] && sh.table.jobs == map[] && sh.table.markers == map[]
    requires d.activeGeneration.None?
    ensures var t := WhenBuilt(RestartsAfterRelease, sh, 0, Acquiring(command, d), 0, 1).table;
            var a := Attempt(command, d, 1, 0);
            && d.Key() in t.documents && t.documents[d.Key()] == MarkedDocument(a)
            && t.leases == map[d.LeaseOf() := Lease(command.job, 1, command.execution, 1)]
            && t.jobs.Keys == {JobKey(d.tenant, command.job)}
            && t.markers.Keys == {MarkerKeyOf(a.Fingerprint())}
  {
  }

  /** The table once the first index is published and its lease given back. */
  predicate PublishedOnce(t: Table, d: Document, command: Command) {
    && t.leases == map[]
    && d.Key() in t.documents && t.documents[d.Key()] == FirstIndex(d, command)
    && t.jobs.Keys == {JobKey(d.tenant, command.job)}
    && t.markers.Keys == {MarkerKeyOf(FingerprintOf(d, command))}
  }

  lemma CommitAndRelease(s: State, base: map<nat, Worker>, a: Attempt, c: Candidate) returns (s': State)
    requires Leads(RestartsAfterRelease, INITIAL_STATE, s) && s.workers == base[0 := Activating(a, c)]
    requires Activatable(s.shared.table, a, c) && a.document.activeGeneration.None?
    ensures Leads(RestartsAfterRelease, INITIAL_STATE, s')
    ensures s' == State(LeaseGivenBack(Committed(s.shared, a, c), a), base[0 := Ended(Some(a), None)])
  {
    s' := CommitCandidate(RestartsAfterRelease, INITIAL_STATE, s, 0, base, a, c);
    s' := Step(RestartsAfterRelease, INITIAL_STATE, s', 0, base, Superseding(a, None), Supersession(PreviousDone));
    s' := Step(RestartsAfterRelease, INITIAL_STATE, s', 0, base, Releasing(a, None), Leaving(ReleaseLease));
  }

  lemma PublishFirst(s: State, d: Document, command: Command) returns (s': State)
    requires Leads(RestartsAfterRelease, INITIAL_STATE, s) && Waiting(s, d)
    requires d.Key() == DocumentKey(command.tenant, command.document)
    ensures Leads(RestartsAfterRelease, INITIAL_STATE, s')
    ensures 1 !in s'.workers && PublishedOnce(s'.shared.table, d, command)
  {
    var x, a := Acquiring(command, d), Attempt(command, d, 1, 0);
    s' := Arrive(RestartsAfterRelease, INITIAL_STATE, s, 0, command, d);
    LeadsOn(RestartsAfterRelease, INITIAL_STATE, s', Try(0, 0, 1));
    s' := Build(RestartsAfterRelease, INITIAL_STATE, s', 0, s.workers, x, 0, 1);
    UndisturbedIsActivatable(RestartsAfterRelease, s.shared, 0, x, 0, 1);
    BuiltTable(s.shared, d, command);
    FirstIsPublished(s'.shared, d, command);
    s' := CommitAndRelease(s', s.workers, a, CandidateOf(a));
  }

  lemma FirstIsPublished(sh: Shared, d: Document, command: Command)
    requires d.activeGeneration.None?
             && Activatable(sh.table, Attempt(command, d, 1, 0), CandidateOf(Attempt(command, d, 1, 0)))
    requires sh.table.documents[d.Key()] == MarkedDocument(Attempt(command, d, 1, 0))
    requires sh.table.leases == map[d.LeaseOf() := Lease(command.job, 1, command.execution, 1)]
    requires sh.table.jobs.Keys == {JobKey(d.tenant, command.job)}
    requires sh.table.markers.Keys == {MarkerKeyOf(FingerprintOf(d, command))}
    ensures var a := Attempt(command, d, 1, 0);
            PublishedOnce(LeaseGivenBack(Committed(sh, a, CandidateOf(a)), a).table, d, command)
  {
  }

  /** Whatever the document: publish it once, give the lease back, and let another job with
      another pipeline try.  Its lease is free and its claim would be granted, but with the
      DynamoDB repository no continuation publishes what it builds. */
  lemma RepublishingIsRejected(d: Document, first: Command, second: Command) returns (r: Trace)
    requires New(d)
    requires d.Key() == DocumentKey(first.tenant, first.document) == DocumentKey(second.tenant, second.document)
    requires first.job != second.job && first.pipeline != second.pipeline
    ensures IsRun(RestartsAfterRelease, r) && AboutToTry(RestartsAfterRelease, Last(r), 1, 1, 2)
    ensures Last(r).workers[1].command == second && Last(r).workers[1].document.activeGeneration.Some?
    ensures !MayPublish(RestartsAfterRelease, Last(r), 1, 1, 2)
  {
    var current := FirstIndex(UploadedDocument(d), first);
    var s := Upload(RestartsAfterRelease, d);
    s := PublishFirst(s, UploadedDocument(d), first);
    s := Arrive(RestartsAfterRelease, INITIAL_STATE, s, 1, second, current);
    assert FingerprintOf(current, second).pipeline != FingerprintOf(UploadedDocument(d), first).pipeline;
    r := RunTo(RestartsAfterRelease, s);
    AfterReleaseOnlyTheUnpublished(r, 1, 1, 2);
  }

  // ---------------------------------------------------------------- the durable counter

  /** The counter of a document version is never behind the document. */
  predicate CounterAhead(sh: Shared, k: DocumentKey) {
    k in sh.table.documents && sh.table.documents[k].lastFencingToken > 0 ==>
      var d := sh.table.documents[k];
      d.LeaseOf() in sh.latest && d.lastFencingToken <= sh.latest[d.LeaseOf()]
  }

  lemma CounterNeverFalls(s: State, e: Event, key: LeaseKey)
    requires EventEnabled(s, e) && key in s.shared.latest
    ensures var latest := Next(DurableCounter, s, e).shared.latest;
            key in latest && s.shared.latest[key] <= latest[key]
  {
    if e.WorkerMoves? && Grants(e.move) {
      if e.move.Beginning? {
        assert Next(DurableCounter, s, e).shared
             == DoBegin(DurableCounter, e.w, s.shared, s.workers[e.w], e.move.begin).0;
      } else {
        assert Next(DurableCounter, s, e).shared
            == DoSubmit(DurableCounter, e.w, s.shared, s.workers[e.w], e.move.submission).0;
      }
    }
  }

  lemma EventKeepsCounterAhead(s: State, e: Event, k: DocumentKey)
    requires Base(s) && EventEnabled(s, e) && TableHistory.Ledger(s.shared) && CounterAhead(s.shared, k)
    requires k in s.shared.table.documents
    ensures CounterAhead(Next(DurableCounter, s, e).shared, k)
  {
    EventIsExplained(DurableCounter, s, e, k);
    var d, d' := s.shared.table.documents[k], Next(DurableCounter, s, e).shared.table.documents[k];
    if d'.lastFencingToken == d.lastFencingToken {
      if d.lastFencingToken > 0 { CounterNeverFalls(s, e, d.LeaseOf()); }
    } else {
      CommitKeepsCounterAhead(s, e, k);
    }
  }

  lemma CommitKeepsCounterAhead(s: State, e: Event, k: DocumentKey)
    requires EventEnabled(s, e) && TableHistory.Ledger(s.shared) && k in s.shared.table.documents
    requires DocumentBase(s.shared, k)
    requires e.WorkerMoves? && s.workers[e.w].Activating?
    requires k in Next(DurableCounter, s, e).shared.table.documents
    requires s.shared.table.documents[k] != Next(DurableCounter, s, e).shared.table.documents[k]
    requires Next(DurableCounter, s, e).shared.table.documents[k].lastFencingToken == s.workers[e.w].attempt.token
    ensures CounterAhead(Next(DurableCounter, s, e).shared, k)
  {
    var x := s.workers[e.w];
    assert e.move.Publication? && e.move.publish.CommitActivation?;
    assert Act(DurableCounter, e.w, s.shared, x, e.move) == DoPublish(s.shared, x, e.move.publish);
    assert ProtocolInvariant.LeaseInv(s.shared, x.attempt.document.LeaseOf());
  }

  lemma PreparationAddsNoDocument(sh: Shared, x: Worker, step: Prepare)
    requires CanPrepare(sh, x, step)
    ensures DoPrepare(sh, x, step).0.table.documents.Keys == sh.table.documents.Keys
  {
    if step.Mark? {
      var d := x.attempt.document;
      if d.activeGeneration.None? && SaveDocumentAllowed(sh.table, d, d.revision) {
        assert d.Key() in sh.table.documents;
      } else {
        assert DoPrepare(sh, x, step).0 == sh;
      }
    }
  }

  lemma RecoveryAddsNoDocument(sh: Shared, x: Worker, step: Recover)
    requires CanRecover(sh, x, step)
    ensures DoRecover(sh, x, step).0.table.documents.Keys == sh.table.documents.Keys
  {
    if step.SaveRestored? && SaveDocumentAllowed(sh.table, x.current, x.current.revision) {
      assert x.current.Key() in sh.table.documents;
    } else {
      assert DoRecover(sh, x, step).0.table.documents == sh.table.documents;
    }
  }

  lemma SubmissionAddsNoDocument(source: TokenSource, w: nat, sh: Shared, x: Worker, step: Submission)
    requires CanSubmit(sh, x, step)
    ensures DoSubmit(source, w, sh, x, step).0.table.documents.Keys == sh.table.documents.Keys
  {
    if step.SaveUploaded? {
      assert MarkUploaded(sh, x.document, x.job, x.token, step.at, step.lost).0.table.documents.Keys
          == sh.table.documents.Keys;
    }
  }

  lemma PublicationAddsNoDocument(sh: Shared, x: Worker, step: Publish)
    requires CanPublish(sh, x, step)
    ensures DoPublish(sh, x, step).0.table.documents.Keys == sh.table.documents.Keys
  {
  }

  lemma MovesAddNoDocument(source: TokenSource, w: nat, sh: Shared, x: Worker, move: Move)
    requires Enabled(sh, x, move)
    ensures Act(source, w, sh, x, move).0.table.documents.Keys == sh.table.documents.Keys
  {
    if WritesDocument(move) {
      match move
      case Preparation(step) => PreparationAddsNoDocument(sh, x, step);
      case Recovery(step) => RecoveryAddsNoDocument(sh, x, step);
      case Submitting(step) => SubmissionAddsNoDocument(source, w, sh, x, step);
      case Publication(step) => PublicationAddsNoDocument(sh, x, step);
    }
  }

  lemma OutsideKeepsCounterAhead(sh: Shared, o: Outside, k: DocumentKey)
    requires OutsideEnabled(sh, o) && CounterAhead(sh, k)
    ensures CounterAhead(ActOutside(sh, o), k)
  {
  }

  /** A document that appears was registered, and never published. */
  lemma NewDocumentsAreUnpublished(s: State, e: Event, k: DocumentKey)
    requires EventEnabled(s, e) && k !in s.shared.table.documents
    ensures CounterAhead(Next(DurableCounter, s, e).shared, k)
  {
    match e
    case WorkerMoves(w, move) =>
      MovesAddNoDocument(DurableCounter, w, s.shared, s.workers[w], move);
      assert k !in Act(DurableCounter, w, s.shared, s.workers[w], move).0.table.documents.Keys;
    case OutsideActs(o) => OutsideKeepsCounterAhead(s.shared, o, k);
    case _ =>
  }

  lemma {:induction false} RunKeepsCounterAhead(r: Trace, i: nat, k: DocumentKey)
    requires IsRun(DurableCounter, r) && i < |r.states|
    ensures CounterAhead(r.states[i].shared, k)
  {
    if i > 0 {
      var s, e := r.states[i - 1], r.events[i - 1];
      RunKeepsCounterAhead(r, i - 1, k);
      RunKeepsBase(DurableCounter, r, i - 1);
      TableHistory.RunKeepsLedger(DurableCounter, r, i - 1);
      assert Follows(DurableCounter, s, e, r.states[i]);
      if k in s.shared.table.documents {
        EventKeepsCounterAhead(s, e, k);
      } else {
        NewDocumentsAreUnpublished(s, e, k);
      }
    }
  }

  /** With the durable counter every worker that may try can publish. */
  lemma DurableCounterCanAlwaysPublish(r: Trace, w: nat, now: int, expiresAt: int)
    requires IsRun(DurableCounter, r) && AboutToTry(DurableCounter, Last(r), w, now, expiresAt)
    ensures MayPublish(DurableCounter, Last(r), w, now, expiresAt)
  {
    RunKeepsCounterAhead(r, |r.events|, Last(r).workers[w].document.Key());
    PublishesIffTokenIsNewer(DurableCounter, r, w, now, expiresAt);
  }
}
