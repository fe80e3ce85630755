/** What an attempt leaves behind that ended with its job still running: it was cancelled, its
    preparation raised, or its failure could not be recorded.  The marker of its fingerprint
    then waits for a newer token.  The DynamoDB repository grants none as long as leases are
    given back, so that the fingerprint cannot be claimed, and its index not be published. */
module BlockedClaims {
  import opened Entities
  import opened ControlTable
  import opened Protocol
  import opened DocumentHistory
  import opened RunBuilding
  import JobCoherence
  import Republishing
  import TableHistory
  import TokenReuse

  /** An attempt on the fingerprint, if worker x makes one, has not claimed its job and cannot,
      for its token is too old, or has nothing left to do but to give its lease back. */
  predicate OnlyKnocks(x: Worker, f: Fingerprint, token: nat) {
    x.Leased() && x.attempt.Fingerprint() == f ==> (x.Claiming? && x.attempt.token <= token) || x.Releasing?
  }

  /** The marker is held by a job that nobody works for any more. */
  predicate Blocked(s: State, f: Fingerprint, job: string, token: nat) {
    && MarkerKeyOf(f) in s.shared.table.markers
    && s.shared.table.markers[MarkerKeyOf(f)] == Marker(job, Running, token)
    && forall w :: w in s.workers ==> OnlyKnocks(s.workers[w], f, token)
  }

  /** Event e begins an attempt on the fingerprint. */
  predicate BeginsAttemptOn(s: State, e: Event, f: Fingerprint) {
    && EventEnabled(s, e) && e.WorkerMoves? && BeginsAttempt(e.move)
    && FingerprintOf(s.workers[e.w].document, s.workers[e.w].command) == f
  }

  /** Event e grants an attempt on the fingerprint a token that is newer. */
  predicate GrantsNewer(source: TokenSource, s: State, e: Event, f: Fingerprint, token: nat) {
    && BeginsAttemptOn(s, e, f)
    && NextToken(source, s.shared, s.workers[e.w].document.LeaseOf()) > token
  }

  /** Event e records the failure of the marker's job from outside. */
  predicate FailsFromOutside(e: Event, f: Fingerprint) {
    && e.OutsideActs? && e.outside.RecordFailure?
    && e.outside.job.Fenced() && e.outside.job.MarkerOf() == MarkerKeyOf(f)
  }

  /** Nothing of the fingerprint has been published meanwhile. */
  predicate NothingPublished(sh: Shared, sh': Shared, f: Fingerprint) {
    forall g :: g in sh'.published && g.fingerprint == f ==> g in sh.published
  }

  // ---------------------------------------------------------------- one event

  lemma BeginningOnlyKnocks(source: TokenSource, w: nat, sh: Shared, x: Worker, step: Begin, f: Fingerprint, token: nat)
    requires CanBegin(sh, x, step)
    requires step.Acquire? && !step.lost && FingerprintOf(x.document, x.command) == f ==>
               NextToken(source, sh, x.document.LeaseOf()) <= token
    ensures OnlyKnocks(DoBegin(source, w, sh, x, step).1, f, token)
  {
  }

  lemma ClaimIsRefused(sh: Shared, x: Worker, step: Prepare, f: Fingerprint, token: nat, job: string)
    requires CanPrepare(sh, x, step) && x.attempt.Fingerprint() == f && x.Claiming? && x.attempt.token <= token
    requires MarkerKeyOf(f) in sh.table.markers && sh.table.markers[MarkerKeyOf(f)] == Marker(job, Running, token)
    ensures DoPrepare(sh, x, step) == (sh, Releasing(x.attempt, None))
  {
    assert RunningJob(x.attempt).MarkerOf() == MarkerKeyOf(f);
  }

  lemma SubmissionHoldsNoAttempt(source: TokenSource, w: nat, sh: Shared, x: Worker, step: Submission)
    requires CanSubmit(sh, x, step)
    ensures !DoSubmit(source, w, sh, x, step).1.Leased()
  {
  }

  lemma LeavingOnlyKnocks(sh: Shared, x: Worker, step: Leave, f: Fingerprint, token: nat)
    requires CanLeave(sh, x, step) && OnlyKnocks(x, f, token)
    ensures OnlyKnocks(DoLeave(sh, x, step).1, f, token)
  {
    assert DoLeave(sh, x, step).1 == x || DoLeave(sh, x, step).1.Ended?;
  }

  /** A worker that has nothing to do with the fingerprint does not begin to, but by taking a
      lease, and one that only knocks goes on doing so. */
  lemma MoveOnlyKnocks(source: TokenSource, s: State, w: nat, move: Move, f: Fingerprint, job: string, token: nat)
    requires EventEnabled(s, WorkerMoves(w, move)) && Blocked(s, f, job, token)
    requires !GrantsNewer(source, s, WorkerMoves(w, move), f, token)
    ensures OnlyKnocks(Act(source, w, s.shared, s.workers[w], move).1, f, token)
  {
    var x := s.workers[w];
    if InsideAttempt(move) {
      if x.attempt.Fingerprint() == f {
        assert x.Claiming? && move.Preparation?;
        ClaimIsRefused(s.shared, x, move.prepare, f, token, job);
      }
    } else if move.Beginning? {
      BeginningOnlyKnocks(source, w, s.shared, x, move.begin, f, token);
    } else if move.Leaving? {
      LeavingOnlyKnocks(s.shared, x, move.leave, f, token);
    } else {
      SubmissionHoldsNoAttempt(source, w, s.shared, x, move.submission);
    }
  }

  predicate SameMarker(t: Table, t': Table, k: MarkerKey) {
    k in t.markers && k in t'.markers && t'.markers[k] == t.markers[k]
  }

  lemma JobMoveKeepsMarker(source: TokenSource, s: State, w: nat, move: Move, f: Fingerprint, job: string, token: nat)
    requires EventEnabled(s, WorkerMoves(w, move)) && Blocked(s, f, job, token) && TableHistory.WritesJob(move)
    ensures SameMarker(s.shared.table, Act(source, w, s.shared, s.workers[w], move).0.table, MarkerKeyOf(f))
  {
    var x := s.workers[w];
    TableHistory.JobMoveIsAWrite(source, w, s.shared, x, move);
    if !move.Submitting? {
      assert RunningJob(x.attempt).MarkerOf() == MarkerKeyOf(x.attempt.Fingerprint());
      if x.attempt.Fingerprint() == f {
        assert x.Claiming? && move.Preparation?;
        ClaimIsRefused(s.shared, x, move.prepare, f, token, job);
      }
    }
  }

  lemma EventKeepsMarker(source: TokenSource, s: State, e: Event, f: Fingerprint, job: string, token: nat)
    requires EventEnabled(s, e) && Blocked(s, f, job, token) && !FailsFromOutside(e, f)
    ensures SameMarker(s.shared.table, Next(source, s, e).shared.table, MarkerKeyOf(f))
  {
    if e.WorkerMoves? {
      if TableHistory.WritesJob(e.move) {
        JobMoveKeepsMarker(source, s, e.w, e.move, f, job, token);
      } else {
        TableHistory.OtherMovesWriteNoJob(source, e.w, s.shared, s.workers[e.w], e.move);
      }
    }
  }

  lemma EventKeepsBlocked(source: TokenSource, s: State, e: Event, f: Fingerprint, job: string, token: nat)
    requires EventEnabled(s, e) && Blocked(s, f, job, token)
    requires !GrantsNewer(source, s, e, f, token) && !FailsFromOutside(e, f)
    ensures Blocked(Next(source, s, e), f, job, token)
    ensures NothingPublished(s.shared, Next(source, s, e).shared, f)
  {
    EventKeepsMarker(source, s, e, f, job, token);
    if e.WorkerMoves? {
      MoveOnlyKnocks(source, s, e.w, e.move, f, job, token);
    }
    forall g | g in Next(source, s, e).shared.published && g.fingerprint == f ensures g in s.shared.published {
      if g !in s.shared.published {
        EventPublishesOnlyByCommit(source, s, e, g);
        assert false;
      }
    }
  }

  // ---------------------------------------------------------------- whole runs

  /** Event n of the run neither grants a newer token nor records a failure from outside. */
  predicate KeepsWaiting(source: TokenSource, r: Trace, n: nat, f: Fingerprint, token: nat)
    requires n < |r.events| && n < |r.states|
  {
    !GrantsNewer(source, r.states[n], r.events[n], f, token) && !FailsFromOutside(r.events[n], f)
  }

  lemma StillBlocked(source: TokenSource, r: Trace, n: nat, f: Fingerprint, job: string, token: nat)
    requires IsRun(source, r) && n < |r.events| && Blocked(r.states[n], f, job, token)
    requires KeepsWaiting(source, r, n, f, token)
    ensures Blocked(r.states[n + 1], f, job, token)
    ensures NothingPublished(r.states[n].shared, r.states[n + 1].shared, f)
  {
    assert Follows(source, r.states[n], r.events[n], r.states[n + 1]);
    EventKeepsBlocked(source, r.states[n], r.events[n], f, job, token);
  }

  /** Until an attempt is granted a newer token, or somebody else records the failure of the
      job, nothing of the fingerprint is claimed or published, whatever else happens. */
  lemma {:induction false} BlockedUntilANewerToken(
      source: TokenSource, r: Trace, i: nat, j: nat, f: Fingerprint, job: string, token: nat)
    requires IsRun(source, r) && i <= j < |r.states| && Blocked(r.states[i], f, job, token)
    requires forall n :: i <= n < j ==> KeepsWaiting(source, r, n, f, token)
    ensures Blocked(r.states[j], f, job, token)
    ensures NothingPublished(r.states[i].shared, r.states[j].shared, f)
    decreases j - i
  {
    if i < j {
      BlockedUntilANewerToken(source, r, i, j - 1, f, job, token);
      StillBlocked(source, r, j - 1, f, job, token);
    }
  }

  /** With the DynamoDB repository that is for ever, as long as every attempt on the
      fingerprint takes a lease that was given back, not one that ran out. */
  lemma BlockedWhileLeasesAreGivenBack(r: Trace, i: nat, j: nat, f: Fingerprint, job: string, token: nat)
    requires IsRun(RestartsAfterRelease, r) && i <= j < |r.states|
    requires Blocked(r.states[i], f, job, token) && token > 0
    requires forall n :: i <= n < j ==>
               && !FailsFromOutside(r.events[n], f)
               && (BeginsAttemptOn(r.states[n], r.events[n], f) ==>
                     r.states[n].workers[r.events[n].w].document.LeaseOf() !in r.states[n].shared.table.leases)
    ensures Blocked(r.states[j], f, job, token)
    ensures NothingPublished(r.states[i].shared, r.states[j].shared, f)
  {
    forall n | i <= n < j ensures KeepsWaiting(RestartsAfterRelease, r, n, f, token) {
      if BeginsAttemptOn(r.states[n], r.events[n], f) {
        var document := r.states[n].workers[r.events[n].w].document;
        assert NextToken(RestartsAfterRelease, r.states[n].shared, document.LeaseOf()) == 1;
      }
    }
    BlockedUntilANewerToken(RestartsAfterRelease, r, i, j, f, job, token);
  }

  /** And it ends exactly with such a token: the marker's own job, delivered again, may claim
      its fingerprint if and only if the token it is granted is newer. */
  lemma RetryMayClaimIffTokenIsNewer(source: TokenSource, r: Trace, w: nat, now: int, job: string, token: nat)
    requires IsRun(source, r) && w in Last(r).workers && Last(r).workers[w].Acquiring?
    requires var x := Last(r).workers[w];
             Blocked(Last(r), FingerprintOf(x.document, x.command), job, token) && x.command.job == job
    ensures var x := Last(r).workers[w];
            ClaimAllowed(Last(r).shared.table, RunningJob(NextAttempt(source, Last(r).shared, x, now)))
            <==> NextToken(source, Last(r).shared, x.document.LeaseOf()) > token
  {
    TableHistory.RunKeepsLedger(source, r, |r.states| - 1);
    var t, x := Last(r).shared.table, Last(r).workers[w];
    var f := FingerprintOf(x.document, x.command);
    assert JobCoherence.MarkerCoherent(t, MarkerKeyOf(f));
    assert RunningJob(NextAttempt(source, Last(r).shared, x, now)).MarkerOf() == MarkerKeyOf(f);
  }

  // ---------------------------------------------------------------- a run that gets there

  /** The first attempt has prepared itself and is cancelled: its lease goes, its job stays. */
  lemma CancelAttempt(s: State, base: map<nat, Worker>, a: Attempt, revision: nat) returns (s': State)
    requires TokenReuse.Reachable(s) && s.workers == base[0 := Preparing(a, revision)]
    ensures TokenReuse.Reachable(s')
    ensures s' == State(LeaseGivenBack(s.shared, a), base[0 := Ended(Some(a), None)])
  {
    s' := Step(RestartsAfterRelease, INITIAL_STATE, s, 0, base, Preparing(a, revision), Leaving(Cancel));
    s' := Step(RestartsAfterRelease, INITIAL_STATE, s', 0, base, Preparing(a, revision), Leaving(Crash));
  }

  /** What the cancelled attempt leaves, and the document as the retry reads it. */
  predicate Interrupted(t: Table, marked: Document, a: Attempt) {
    && marked.Key() in t.documents && t.documents[marked.Key()] == marked && Ingestable(marked)
    && marked.LeaseOf() !in t.leases
    && FingerprintOf(marked, a.command) == a.Fingerprint()
    && MarkerKeyOf(a.Fingerprint()) in t.markers
    && t.markers[MarkerKeyOf(a.Fingerprint())] == Marker(a.command.job, Running, 1)
  }

  lemma PreparedThenCancelled(sh: Shared, d: Document, command: Command)
    requires sh.table.leases == map[] && d.activeGeneration.None?
    ensures var a := Attempt(command, d, 1, 0);
            var leased := Leased(RestartsAfterRelease, sh, 0, Acquiring(command, d), 0, 1);
            Interrupted(LeaseGivenBack(WithTable(leased, Prepared(leased.table, a)), a).table, MarkedDocument(a), a)
  {
  }

  lemma RetryIsRefused(s: State, base: map<nat, Worker>, marked: Document, a: Attempt)
    requires Interrupted(s.shared.table, marked, a) && s.workers == base[0 := Ended(Some(a), None)]
    requires forall w :: w in base ==> !base[w].Leased()
    ensures var x := Acquiring(a.command, marked);
            && CanBegin(s.shared, x, Acquire(1, 2, false))
            && Blocked(State(s.shared, s.workers[1 := x]), FingerprintOf(marked, a.command), a.command.job, 1)
            && !ClaimAllowed(s.shared.table, RunningJob(NextAttempt(RestartsAfterRelease, s.shared, x, 1)))
  {
    var retry := NextAttempt(RestartsAfterRelease, s.shared, Acquiring(a.command, marked), 1);
    assert RunningJob(retry).MarkerOf() == MarkerKeyOf(a.Fingerprint()) && retry.token == 1;
  }

  /** Whatever the document and the command: there is a run at whose end the job of an attempt
      that was cancelled has been delivered again, its lease is free, and its fingerprint is
      blocked. */
  lemma CancellationBlocksTheFingerprint(d: Document, command: Command) returns (r: Trace)
    requires New(d) && d.Key() == DocumentKey(command.tenant, command.document)
    ensures IsRun(RestartsAfterRelease, r) && 1 in Last(r).workers && Last(r).workers[1].Acquiring?
    ensures var x := Last(r).workers[1];
            && x.command == command && x.document.Key() == d.Key()
            && CanBegin(Last(r).shared, x, Acquire(1, 2, false))
            && x.document.LeaseOf() !in Last(r).shared.table.leases
            && Blocked(Last(r), FingerprintOf(x.document, command), command.job, 1)
            && !ClaimAllowed(Last(r).shared.table, RunningJob(NextAttempt(RestartsAfterRelease, Last(r).shared, x, 1)))
  {
    var s := Upload(RestartsAfterRelease, d);
    var uploaded := UploadedDocument(d);
    var a := Attempt(command, uploaded, 1, 0);
    var before := s;
    s := TokenReuse.TakeAndPrepare(s, 0, command, uploaded, 0);
    PreparedThenCancelled(before.shared, uploaded, command);
    s := CancelAttempt(s, before.workers, a, MarkedDocument(a).revision);
    var cancelled := s;
    s := Arrive(RestartsAfterRelease, INITIAL_STATE, s, 1, command, MarkedDocument(a));
    RetryIsRefused(cancelled, before.workers, MarkedDocument(a), a);
    r := RunTo(RestartsAfterRelease, s);
  }
}
