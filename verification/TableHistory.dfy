/** The protocol writes the control table by the writes of JobCoherence only, so what those
    keep holds in every run, with either lease repository and whether or not attempts repeat:
    no fingerprint is published twice, and an activation carries the token granted last. */
module TableHistory {
  import opened Entities
  import opened ControlTable
  import opened JobCoherence
  import opened Protocol
  import opened DocumentHistory
  import opened ProtocolInvariant

  /** The moves that write a job or a marker. */
  predicate WritesJob(move: Move) {
    || (move.Preparation? && move.prepare.Claim?)
    || (move.Recovery? && move.recover.SaveFailure?)
    || (move.Submitting? && move.submission.SubmitPending?)
    || (move.Publication? && move.publish.CommitActivation?)
  }

  function WriteOfMove(x: Worker, sh: Shared, move: Move): Write
    requires Enabled(sh, x, move) && WritesJob(move)
  {
    if move.Preparation? then ClaimJob(RunningJob(x.attempt))
    else if move.Recovery? then SaveJob(FailedJob(x.attempt, move.recover.error, move.recover.at))
    else if move.Submitting? then
      SubmitJob(PendingJob(x.document, x.job, move.submission.modelAlias, move.submission.pipelineVersion,
                           move.submission.at))
    else
      ActivateGeneration(ReadyGeneration(x.attempt, x.candidate.count, x.candidate.readyAt),
                         SucceededJob(x.attempt, x.candidate.count, x.candidate.completedAt),
                         x.candidate.revision, x.candidate.completedAt)
  }

  /** The write of the control table that an event makes. */
  function WriteOf(source: TokenSource, s: State, e: Event): Write
    requires EventEnabled(s, e)
  {
    if e.WorkerMoves? && WritesJob(e.move) then WriteOfMove(s.workers[e.w], s.shared, e.move)
    else if e.OutsideActs? && e.outside.RecordFailure? then SaveJob(e.outside.job)
    else
      var t := Next(source, s, e).shared.table;
      OtherItems(t.documents, t.leases, t.generations)
  }

  lemma CommitIsAWrite(sh: Shared, x: Worker, step: Publish)
    requires CanPublish(sh, x, step) && step.CommitActivation?
    ensures WellFormed(WriteOfMove(x, sh, Publication(step)))
    ensures DoPublish(sh, x, step).0.table == Apply(sh.table, WriteOfMove(x, sh, Publication(step)))
  {
  }

  lemma ClaimIsAWrite(sh: Shared, x: Worker, step: Prepare)
    requires CanPrepare(sh, x, step) && step.Claim?
    ensures DoPrepare(sh, x, step).0.table == Apply(sh.table, ClaimJob(RunningJob(x.attempt)))
  {
  }

  lemma FailureIsAWrite(sh: Shared, x: Worker, step: Recover)
    requires CanRecover(sh, x, step) && step.SaveFailure?
    ensures DoRecover(sh, x, step).0.table == Apply(sh.table, SaveJob(FailedJob(x.attempt, step.error, step.at)))
  {
  }

  lemma JobMoveIsAWrite(source: TokenSource, w: nat, sh: Shared, x: Worker, move: Move)
    requires Enabled(sh, x, move) && WritesJob(move)
    ensures WellFormed(WriteOfMove(x, sh, move))
    ensures Act(source, w, sh, x, move).0.table == Apply(sh.table, WriteOfMove(x, sh, move))
  {
    match move
    case Preparation(step) => ClaimIsAWrite(sh, x, step);
    case Recovery(step) => FailureIsAWrite(sh, x, step);
    case Submitting(step) => assert Act(source, w, sh, x, move) == DoSubmit(source, w, sh, x, step);
    case Publication(step) => CommitIsAWrite(sh, x, step);
  }

  predicate SameJobs(t: Table, t': Table) {
    t'.jobs == t.jobs && t'.markers == t.markers
  }

  lemma SubmissionWritesNoOtherJob(source: TokenSource, w: nat, sh: Shared, x: Worker, step: Submission)
    requires CanSubmit(sh, x, step) && !step.SubmitPending?
    ensures SameJobs(sh.table, DoSubmit(source, w, sh, x, step).0.table)
  {
  }

  lemma RecoveryWritesNoOtherJob(sh: Shared, x: Worker, step: Recover)
    requires CanRecover(sh, x, step) && !step.SaveFailure?
    ensures SameJobs(sh.table, DoRecover(sh, x, step).0.table)
  {
  }

  lemma PreparationWritesNoOtherJob(sh: Shared, x: Worker, step: Prepare)
    requires CanPrepare(sh, x, step) && !step.Claim?
    ensures SameJobs(sh.table, DoPrepare(sh, x, step).0.table)
  {
  }

  lemma OtherMovesWriteNoJob(source: TokenSource, w: nat, sh: Shared, x: Worker, move: Move)
    requires Enabled(sh, x, move) && !WritesJob(move)
    ensures SameJobs(sh.table, Act(source, w, sh, x, move).0.table)
  {
    match move
    case Beginning(step) => assert SameJobs(sh.table, DoBegin(source, w, sh, x, step).0.table);
    case Preparation(step) => PreparationWritesNoOtherJob(sh, x, step);
    case Construction(step) => assert SameJobs(sh.table, DoBuild(sh, x, step).0.table);
    case Publication(step) => assert DoPublish(sh, x, step).0 == sh;
    case Supersession(step) => assert SameJobs(sh.table, DoSupersede(sh, x, step).0.table);
    case Recovery(step) => RecoveryWritesNoOtherJob(sh, x, step);
    case Leaving(step) => assert SameJobs(sh.table, DoLeave(sh, x, step).0.table);
    case Submitting(step) => SubmissionWritesNoOtherJob(source, w, sh, x, step);
  }

  /** The protocol refines the writes of the job repository. */
  lemma EventIsAWrite(source: TokenSource, s: State, e: Event)
    requires EventEnabled(s, e)
    ensures WellFormed(WriteOf(source, s, e))
    ensures Next(source, s, e).shared.table == Apply(s.shared.table, WriteOf(source, s, e))
  {
    match e
    case WorkerMoves(w, move) =>
      if WritesJob(move) {
        JobMoveIsAWrite(source, w, s.shared, s.workers[w], move);
      } else {
        OtherMovesWriteNoJob(source, w, s.shared, s.workers[w], move);
      }
    case OutsideActs(o) => assert Next(source, s, e).shared == ActOutside(s.shared, o);
    case _ => assert Next(source, s, e).shared == s.shared;
  }

  // ---------------------------------------------------------------- what every run keeps

  ghost predicate Ledger(sh: Shared) {
    && Coherent(sh.table)
    && (forall k :: LeaseInv(sh, k))
    && (forall g :: Marked(sh, g))
  }

  /** The moves that take or give back a lease. */
  predicate TouchesLeases(move: Move) {
    move.Beginning? || move.Submitting? || move.Leaving?
  }

  lemma GrantKeepsLeases(sh: Shared, key: LeaseKey, lease: Lease, k: LeaseKey)
    requires LeaseInv(sh, k)
    ensures LeaseInv(GrantLease(sh, key, lease), k)
  {
  }

  lemma BeginningKeepsLeases(source: TokenSource, w: nat, sh: Shared, x: Worker, step: Begin, k: LeaseKey)
    requires CanBegin(sh, x, step) && LeaseInv(sh, k)
    ensures LeaseInv(DoBegin(source, w, sh, x, step).0, k)
  {
    if step.Acquire? {
      var a := NextAttempt(source, sh, x, step.now);
      GrantKeepsLeases(sh, x.document.LeaseOf(), Lease(x.command.job, a.token, x.command.execution, step.expiresAt), k);
    }
  }

  lemma SubmissionKeepsLeases(source: TokenSource, w: nat, sh: Shared, x: Worker, step: Submission, k: LeaseKey)
    requires CanSubmit(sh, x, step) && LeaseInv(sh, k)
    ensures LeaseInv(DoSubmit(source, w, sh, x, step).0, k)
  {
    if step.AcquireSubmission? {
      var key := x.document.LeaseOf();
      var lease := Lease(SubmissionOwner(x.job), NextToken(source, sh, key), step.execution, step.expiresAt);
      GrantKeepsLeases(sh, key, lease, k);
    }
  }

  lemma LeavingKeepsLeases(sh: Shared, x: Worker, step: Leave, k: LeaseKey)
    requires CanLeave(sh, x, step) && LeaseInv(sh, k)
    ensures LeaseInv(DoLeave(sh, x, step).0, k)
  {
  }

  lemma OtherMovesTouchNoLease(source: TokenSource, w: nat, sh: Shared, x: Worker, move: Move)
    requires Enabled(sh, x, move) && !TouchesLeases(move)
    ensures Act(source, w, sh, x, move).0.table.leases == sh.table.leases
  {
    match move
    case Preparation(step) => assert DoPrepare(sh, x, step).0.table.leases == sh.table.leases;
    case Construction(step) => assert DoBuild(sh, x, step).0.table.leases == sh.table.leases;
    case Publication(step) => assert DoPublish(sh, x, step).0.table.leases == sh.table.leases;
    case Supersession(step) => assert DoSupersede(sh, x, step).0.table.leases == sh.table.leases;
    case Recovery(step) => assert DoRecover(sh, x, step).0.table.leases == sh.table.leases;
  }

  lemma LeaseMove(source: TokenSource, w: nat, sh: Shared, x: Worker, move: Move, k: LeaseKey)
    requires Enabled(sh, x, move) && LeaseInv(sh, k)
    ensures LeaseInv(Act(source, w, sh, x, move).0, k)
  {
    if TouchesLeases(move) {
      match move
      case Beginning(step) => BeginningKeepsLeases(source, w, sh, x, step, k);
      case Leaving(step) => LeavingKeepsLeases(sh, x, step, k);
      case Submitting(step) => SubmissionKeepsLeases(source, w, sh, x, step, k);
    } else {
      OtherMovesTouchNoLease(source, w, sh, x, move);
    }
  }

  lemma LeaseEvent(source: TokenSource, s: State, e: Event, k: LeaseKey)
    requires EventEnabled(s, e) && LeaseInv(s.shared, k)
    ensures LeaseInv(Next(source, s, e).shared, k)
  {
    match e
    case WorkerMoves(w, move) => LeaseMove(source, w, s.shared, s.workers[w], move, k);
    case OutsideActs(o) => assert LeaseInv(ActOutside(s.shared, o), k);
    case StartIngestion(_, _) => assert Next(source, s, e).shared == s.shared;
    case StartSubmission(_, _, _, _) => assert Next(source, s, e).shared == s.shared;
  }

  lemma CommitMarks(sh: Shared, x: Worker, lost: bool)
    requires Coherent(sh.table) && CanPublish(sh, x, CommitActivation(lost))
    ensures Marked(DoPublish(sh, x, CommitActivation(lost)).0, x.attempt.Generation())
  {
  }

  lemma MarkerEvent(source: TokenSource, s: State, e: Event, g: GenerationId)
    requires EventEnabled(s, e) && Coherent(s.shared.table) && Marked(s.shared, g)
    ensures Marked(Next(source, s, e).shared, g)
  {
    if g in s.shared.published {
      EventIsAWrite(source, s, e);
      MarkersMoveForward(s.shared.table, WriteOf(source, s, e), MarkerKeyOf(g.fingerprint));
    } else if g in Next(source, s, e).shared.published {
      EventPublishesOnlyByCommit(source, s, e, g);
      assert Act(source, e.w, s.shared, s.workers[e.w], e.move) == DoPublish(s.shared, s.workers[e.w], e.move.publish);
      CommitMarks(s.shared, s.workers[e.w], e.move.publish.lost);
    }
  }

  lemma EventKeepsLedger(source: TokenSource, s: State, e: Event)
    requires EventEnabled(s, e) && Ledger(s.shared)
    ensures Ledger(Next(source, s, e).shared)
  {
    var sh' := Next(source, s, e).shared;
    EventIsAWrite(source, s, e);
    ApplyKeepsCoherence(s.shared.table, WriteOf(source, s, e));
    forall k ensures LeaseInv(sh', k) {
      assert LeaseInv(s.shared, k);
      LeaseEvent(source, s, e, k);
    }
    forall g ensures Marked(sh', g) {
      assert Marked(s.shared, g);
      MarkerEvent(source, s, e, g);
    }
  }

  lemma {:induction false} RunKeepsLedger(source: TokenSource, r: Trace, i: nat)
    requires IsRun(source, r) && i < |r.states|
    ensures Ledger(r.states[i].shared)
  {
    if i == 0 {
      EmptyIsCoherent();
      assert forall k :: LeaseInv(INITIAL_STATE.shared, k);
      assert forall g :: Marked(INITIAL_STATE.shared, g);
    } else {
      RunKeepsLedger(source, r, i - 1);
      assert Follows(source, r.states[i - 1], r.events[i - 1], r.states[i]);
      EventKeepsLedger(source, r.states[i - 1], r.events[i - 1]);
    }
  }

  /** Two generations of one fingerprint that were ever published are the same generation. */
  lemma OnePublicationPerFingerprint(source: TokenSource, r: Trace, i: nat, g: GenerationId, g': GenerationId)
    requires IsRun(source, r) && i < |r.states|
    requires g in r.states[i].shared.published && g' in r.states[i].shared.published
    requires g.fingerprint == g'.fingerprint
    ensures g == g'
  {
    RunKeepsLedger(source, r, i);
    assert Marked(r.states[i].shared, g) && Marked(r.states[i].shared, g');
  }

  /** find_by_fingerprint never misses its job in any state of the protocol. */
  lemma LookupNeverFails(source: TokenSource, r: Trace, i: nat, k: MarkerKey)
    requires IsRun(source, r) && i < |r.states|
    ensures !FindByFingerprint(r.states[i].shared.table, k).Missing?
  {
    RunKeepsLedger(source, r, i);
    LookupFindsTheOwner(r.states[i].shared.table, k);
  }

  // ---------------------------------------------------------------- fencing tokens

  /** A committed activation carries the token granted last for its lease key, and a larger
      one than any earlier activation of the document. */
  lemma ActivationCarriesNewestToken(source: TokenSource, r: Trace, i: nat, w: nat, lost: bool)
    requires IsRun(source, r) && i < |r.events|
    requires r.events[i] == WorkerMoves(w, Publication(CommitActivation(lost)))
    ensures w in r.states[i].workers && r.states[i].workers[w].Activating?
    ensures var sh, a := r.states[i].shared, r.states[i].workers[w].attempt;
            && a.document.LeaseOf() in sh.latest
            && sh.latest[a.document.LeaseOf()] == a.token
            && a.document.Key() in sh.table.documents
            && sh.table.documents[a.document.Key()].lastFencingToken < a.token
            && a.document.Key() in r.states[i + 1].shared.table.documents
            && r.states[i + 1].shared.table.documents[a.document.Key()].lastFencingToken == a.token
  {
    RunKeepsLedger(source, r, i);
    var s := r.states[i];
    assert Follows(source, s, r.events[i], r.states[i + 1]);
    assert LeaseInv(s.shared, s.workers[w].attempt.document.LeaseOf());
    assert Act(source, w, s.shared, s.workers[w], r.events[i].move)
        == DoPublish(s.shared, s.workers[w], CommitActivation(lost));
  }

  /** The tokens of successive activations of one document strictly increase. */
  lemma ActivationTokensIncrease(
      source: TokenSource, r: Trace, i: nat, j: nat, w: nat, v: nat, lost: bool, lost': bool)
    requires IsRun(source, r) && i < j < |r.events|
    requires r.events[i] == WorkerMoves(w, Publication(CommitActivation(lost)))
    requires r.events[j] == WorkerMoves(v, Publication(CommitActivation(lost')))
    requires w in r.states[i].workers && r.states[i].workers[w].Activating?
    requires v in r.states[j].workers && r.states[j].workers[v].Activating?
    requires r.states[j].workers[v].attempt.document.Key() == r.states[i].workers[w].attempt.document.Key()
    ensures r.states[i].workers[w].attempt.token < r.states[j].workers[v].attempt.token
  {
    ActivationCarriesNewestToken(source, r, i, w, lost);
    ActivationCarriesNewestToken(source, r, j, v, lost');
    DocumentsMoveForward(source, r, i + 1, j, r.states[i].workers[w].attempt.document.Key());
  }
}
