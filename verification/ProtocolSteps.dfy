/** Every step of every worker keeps the invariant and stays within the guarantee. */
module ProtocolSteps {
  import opened Entities
  import opened ControlTable
  import opened JobCoherence
  import opened Protocol
  import opened ProtocolInvariant

  ghost predicate Safe(sh: Shared, sh': Shared, w: nat) {
    SharedInv(sh') && Guarantee(sh, sh', w)
  }

  ghost predicate Good(sh: Shared, sh': Shared, w: nat, x': Worker) {
    Safe(sh, sh', w) && WorkerInv(sh', w, x')
  }

  // ---------------------------------------------------------------- one kind of write at a time

  /** No step that keeps the documents' active generations breaks one that is active. */
  lemma DocumentInvFollows(sh: Shared, sh': Shared, w: nat, k: DocumentKey)
    requires SharedInv(sh) && Guarantee(sh, sh', w)
    requires k in sh.table.documents && k in sh'.table.documents
    requires var d, d' := sh.table.documents[k], sh'.table.documents[k];
             d'.Key() == k && WellFormedDocument(d') && d'.activeGeneration == d.activeGeneration
    ensures DocumentInv(sh', k)
  {
    assert DocumentInv(sh, k);
    if sh.table.documents[k].activeGeneration.Some? {
      var g := sh.table.documents[k].activeGeneration.value;
      assert DocumentKeyOf(g) == k;
      assert PublicationKept(sh, sh', w, g) && GenerationKept(sh, sh', w, g);
    }
  }

  lemma PublishedInvFollows(sh: Shared, sh': Shared, w: nat, g: GenerationId)
    requires SharedInv(sh) && Guarantee(sh, sh', w) && g in sh.published
    ensures PublishedInv(sh', g)
  {
    assert PublishedInv(sh, g);
    assert AttemptKept(sh, sh', g);
    assert MarkerKept(sh, sh', w, MarkerKeyOf(g.fingerprint));
  }

  /** Writes that leave the documents and the published set alone. */
  lemma SafeFollows(sh: Shared, sh': Shared, w: nat)
    requires SharedInv(sh) && Guarantee(sh, sh', w) && Coherent(sh'.table)
    requires forall k :: RunningJobInv(sh', k)
    requires sh'.table.documents == sh.table.documents && sh'.published == sh.published
    requires forall k :: LeaseInv(sh', k)
    ensures Safe(sh, sh', w)
  {
    forall k ensures DocumentInv(sh', k) {
      if k in sh.table.documents {
        assert DocumentInv(sh, k);
        DocumentInvFollows(sh, sh', w, k);
      }
    }
    forall g ensures PublishedInv(sh', g) {
      if g in sh.published { PublishedInvFollows(sh, sh', w, g); }
    }
  }

  lemma NothingChanges(sh: Shared, w: nat)
    requires SharedInv(sh)
    ensures Safe(sh, sh, w)
  {
    assert forall g :: AttemptKept(sh, sh, g);
    assert forall k :: DocumentKept(sh, sh, k);
    assert forall g :: PublicationKept(sh, sh, w, g);
    assert forall g :: GenerationKept(sh, sh, w, g);
    assert forall k :: JobKept(sh, sh, k);
    assert forall k :: MarkerKept(sh, sh, w, k);
  }

  lemma LeaseChange(sh: Shared, sh': Shared, w: nat)
    requires SharedInv(sh)
    requires sh' == sh.(table := sh.table.(leases := sh'.table.leases), grants := sh'.grants, latest := sh'.latest,
                        attempts := sh'.attempts)
    requires forall g :: AttemptKept(sh, sh', g)
    requires forall k :: LeaseInv(sh', k)
    ensures Safe(sh, sh', w)
  {
    OtherItemsKeepCoherence(sh.table, sh'.table);
    assert forall k :: DocumentKept(sh, sh', k);
    assert forall g :: PublicationKept(sh, sh', w, g);
    assert forall g :: GenerationKept(sh, sh', w, g);
    assert forall k :: JobKept(sh, sh', k);
    assert forall k :: MarkerKept(sh, sh', w, k);
    forall k ensures RunningJobInv(sh', k) { assert RunningJobInv(sh, k); }
    SafeFollows(sh, sh', w);
  }

  lemma GrantChange(sh: Shared, w: nat, key: LeaseKey, lease: Lease)
    requires SharedInv(sh)
    ensures Safe(sh, GrantLease(sh, key, lease), w)
  {
    var sh' := GrantLease(sh, key, lease);
    assert forall g :: AttemptKept(sh, sh', g);
    forall k ensures LeaseInv(sh', k) { assert LeaseInv(sh, k); }
    LeaseChange(sh, sh', w);
  }

  lemma BeginChange(sh: Shared, w: nat, key: LeaseKey, lease: Lease, a: Attempt)
    requires SharedInv(sh) && a.Generation() !in sh.attempts
    ensures Safe(sh, Begun(GrantLease(sh, key, lease), w, a), w)
  {
    var sh' := Begun(GrantLease(sh, key, lease), w, a);
    assert forall g :: AttemptKept(sh, sh', g);
    forall k ensures LeaseInv(sh', k) { assert LeaseInv(sh, k); }
    LeaseChange(sh, sh', w);
  }

  lemma ReleaseChange(sh: Shared, w: nat, key: LeaseKey)
    requires SharedInv(sh)
    ensures Safe(sh, WithTable(sh, Release(sh.table, key)), w)
  {
    var sh' := WithTable(sh, Release(sh.table, key));
    assert forall g :: AttemptKept(sh, sh', g);
    forall k ensures LeaseInv(sh', k) { assert LeaseInv(sh, k); }
    LeaseChange(sh, sh', w);
  }

  /** A job put that passed its condition, made by the worker that holds its token. */
  lemma PutJobChange(sh: Shared, w: nat, job: Job)
    requires SharedInv(sh) && job.Fenced()
    requires || (job.status == Running && ClaimAllowed(sh.table, job) && job.generation.Some?
                 && job.document == job.generation.value.fingerprint.document
                 && job.sourceVersion == job.generation.value.fingerprint.sourceVersion
                 && OwnedBy(sh, GenerationId(job.fingerprint.value, job.id, job.fencingToken.value), w))
             || (job.status == Failed && SaveAllowed(sh.table, job))
    ensures Safe(sh, WithTable(sh, PutJob(sh.table, job)), w)
  {
    var sh' := WithTable(sh, PutJob(sh.table, job));
    PutJobKeepsCoherence(sh.table, job);
    assert forall g :: AttemptKept(sh, sh', g);
    assert forall k :: DocumentKept(sh, sh', k);
    assert forall g :: PublicationKept(sh, sh', w, g);
    assert forall g :: GenerationKept(sh, sh', w, g);
    assert forall k :: JobKept(sh, sh', k);
    forall k ensures MarkerKept(sh, sh', w, k) {}
    forall k ensures LeaseInv(sh', k) { assert LeaseInv(sh, k); }
    forall k ensures RunningJobInv(sh', k) { assert RunningJobInv(sh, k); }
    SafeFollows(sh, sh', w);
  }

  lemma SubmitChange(sh: Shared, w: nat, job: Job)
    requires SharedInv(sh) && SubmitAllowed(sh.table, job) && job.status == Pending && job.fingerprint.None?
    ensures Safe(sh, WithTable(sh, Submit(sh.table, job)), w)
  {
    var sh' := WithTable(sh, Submit(sh.table, job));
    SubmitKeepsCoherence(sh.table, job);
    assert forall g :: AttemptKept(sh, sh', g);
    assert forall k :: DocumentKept(sh, sh', k);
    assert forall g :: PublicationKept(sh, sh', w, g);
    assert forall g :: GenerationKept(sh, sh', w, g);
    assert forall k :: JobKept(sh, sh', k);
    assert forall k :: MarkerKept(sh, sh', w, k);
    forall k ensures LeaseInv(sh', k) { assert LeaseInv(sh, k); }
    forall k ensures RunningJobInv(sh', k) { assert RunningJobInv(sh, k); }
    SafeFollows(sh, sh', w);
  }

  /** Any change of one disposable generation's record and objects. */
  lemma DisposableChange(sh: Shared, sh': Shared, w: nat, g: GenerationId)
    requires SharedInv(sh) && Disposable(sh, w, g)
    requires sh' == sh.(table := sh.table.(generations := sh'.table.generations),
                        chunks := sh'.chunks, vectors := sh'.vectors)
    requires forall p :: p != g ==> SameData(sh, sh', p)
    ensures Safe(sh, sh', w)
  {
    OtherItemsKeepCoherence(sh.table, sh'.table);
    assert forall p :: AttemptKept(sh, sh', p);
    assert forall k :: DocumentKept(sh, sh', k);
    assert forall p :: PublicationKept(sh, sh', w, p);
    forall p ensures GenerationKept(sh, sh', w, p) {
      if p != g { assert SameData(sh, sh', p); }
    }
    assert forall k :: JobKept(sh, sh', k);
    assert forall k :: MarkerKept(sh, sh', w, k);
    forall k ensures LeaseInv(sh', k) { assert LeaseInv(sh, k); }
    forall k ensures RunningJobInv(sh', k) { assert RunningJobInv(sh, k); }
    SafeFollows(sh, sh', w);
  }

  lemma PutRecordChange(sh: Shared, w: nat, g: GenerationId, record: Generation)
    requires SharedInv(sh) && Disposable(sh, w, g)
    ensures Safe(sh, WithTable(sh, sh.table.(generations := sh.table.generations[GenerationKeyOf(g) := record])), w)
  {
    var sh' := WithTable(sh, sh.table.(generations := sh.table.generations[GenerationKeyOf(g) := record]));
    assert forall p :: p != g ==> SameData(sh, sh', p);
    DisposableChange(sh, sh', w, g);
  }

  lemma DeleteObjectsChange(sh: Shared, w: nat, g: GenerationId, chunks: set<nat>, vectors: set<nat>)
    requires SharedInv(sh) && Disposable(sh, w, g)
    ensures Safe(sh, DeleteObjects(sh, g, chunks, vectors), w)
  {
    var sh' := DeleteObjects(sh, g, chunks, vectors);
    assert forall p :: p != g ==> SameData(sh, sh', p);
    DisposableChange(sh, sh', w, g);
  }

  /** Adding objects harms nobody. */
  lemma PutObjectsChange(sh: Shared, sh': Shared, w: nat)
    requires SharedInv(sh)
    requires sh' == sh.(chunks := sh'.chunks, vectors := sh'.vectors)
    requires forall p :: SameData(sh, sh', p)
    ensures Safe(sh, sh', w)
  {
    assert forall p :: AttemptKept(sh, sh', p);
    assert forall k :: DocumentKept(sh, sh', k);
    assert forall p :: PublicationKept(sh, sh', w, p);
    forall p ensures GenerationKept(sh, sh', w, p) { assert SameData(sh, sh', p); }
    assert forall k :: JobKept(sh, sh', k);
    assert forall k :: MarkerKept(sh, sh', w, k);
    forall k ensures LeaseInv(sh', k) { assert LeaseInv(sh, k); }
    forall k ensures RunningJobInv(sh', k) { assert RunningJobInv(sh, k); }
    SafeFollows(sh, sh', w);
  }

  /** The compare-and-swap of a document that was read earlier; only its status changes. */
  lemma SaveDocumentChange(sh: Shared, w: nat, read: Document, status: DocumentStatus, at: int)
    requires SharedInv(sh) && ReadEarlier(sh, read) && read.activeGeneration.None? && status != Indexed
    requires SaveDocumentAllowed(sh.table, read, read.revision)
    ensures Safe(sh, WithTable(sh, SaveDocument(sh.table, read.(status := status, updatedAt := at), read.revision)), w)
  {
    var sh' := WithTable(sh, SaveDocument(sh.table, read.(status := status, updatedAt := at), read.revision));
    OtherItemsKeepCoherence(sh.table, sh'.table);
    assert forall p :: AttemptKept(sh, sh', p);
    forall k ensures DocumentKept(sh, sh', k) {
      if k == read.Key() { assert DocumentWritten(read, sh'.table.documents[k]); }
    }
    assert forall p :: PublicationKept(sh, sh', w, p);
    forall p ensures GenerationKept(sh, sh', w, p) { assert SameData(sh, sh', p); }
    assert forall k :: JobKept(sh, sh', k);
    assert forall k :: MarkerKept(sh, sh', w, k);
    forall k ensures LeaseInv(sh', k) { assert LeaseInv(sh, k); }
    forall k ensures RunningJobInv(sh', k) { assert RunningJobInv(sh, k); }
    forall k ensures DocumentInv(sh', k) {
      if k in sh.table.documents {
        assert DocumentInv(sh, k);
        DocumentInvFollows(sh, sh', w, k);
      }
    }
    forall g ensures PublishedInv(sh', g) {
      if g in sh.published { PublishedInvFollows(sh, sh', w, g); }
    }
  }

  // ---------------------------------------------------------------- the steps of each phase

  lemma BeginSteps(source: TokenSource, w: nat, sh: Shared, x: Worker, step: Begin)
    requires SharedInv(sh) && WorkerInv(sh, w, x) && CanBegin(sh, x, step)
    requires step.Acquire? && !step.lost ==> NextAttempt(source, sh, x, step.now).Generation() !in sh.attempts
    ensures var r := DoBegin(source, w, sh, x, step); Good(sh, r.0, w, r.1)
  {
    match step
    case ReadDocument =>
      NothingChanges(sh, w);
      assert DocumentInv(sh, DocumentKey(x.command.tenant, x.command.document));
    case FindPrevious(_) => NothingChanges(sh, w);
    case Acquire(_, _, _) => AcquireStep(source, w, sh, x, step);
  }

  /** A generation that no attempt has built was not published. */
  lemma AcquireStep(source: TokenSource, w: nat, sh: Shared, x: Worker, step: Begin)
    requires SharedInv(sh) && WorkerInv(sh, w, x) && CanBegin(sh, x, step) && step.Acquire?
    requires !step.lost ==> NextAttempt(source, sh, x, step.now).Generation() !in sh.attempts
    ensures var r := DoBegin(source, w, sh, x, step); Good(sh, r.0, w, r.1)
  {
    var key := x.document.LeaseOf();
    var a := NextAttempt(source, sh, x, step.now);
    var lease := Lease(x.command.job, a.token, x.command.execution, step.expiresAt);
    if step.lost {
      GrantChange(sh, w, key, lease);
    } else {
      BeginChange(sh, w, key, lease, a);
      BegunKnows(sh, Begun(GrantLease(sh, key, lease), w, a), w, a);
    }
  }

  lemma BegunKnows(sh: Shared, sh': Shared, w: nat, a: Attempt)
    requires SharedInv(sh) && Guarantee(sh, sh', w) && ReadEarlier(sh, a.document) && a.Generation() !in sh.attempts
    requires OwnedBy(sh', a.Generation(), w) && sh'.published == sh.published
    ensures WorkerInv(sh', w, Claiming(a))
  {
    ReadEarlierIsStable(sh, sh', w, a.document);
    assert PublishedInv(sh, a.Generation());
  }

  lemma ClaimStep(w: nat, sh: Shared, x: Worker, step: Prepare)
    requires SharedInv(sh) && WorkerInv(sh, w, x) && CanPrepare(sh, x, step) && step.Claim?
    ensures var r := DoPrepare(sh, x, step); Good(sh, r.0, w, r.1)
  {
    if ClaimAllowed(sh.table, RunningJob(x.attempt)) {
      PutJobChange(sh, w, RunningJob(x.attempt));
    } else {
      NothingChanges(sh, w);
    }
    AttemptIsStable(sh, DoPrepare(sh, x, step).0, w, w, x.attempt);
  }

  lemma MarkStep(w: nat, sh: Shared, x: Worker, step: Prepare)
    requires SharedInv(sh) && WorkerInv(sh, w, x) && CanPrepare(sh, x, step) && step.Mark?
    ensures var r := DoPrepare(sh, x, step); Good(sh, r.0, w, r.1)
  {
    var d := x.attempt.document;
    if d.activeGeneration.None? && SaveDocumentAllowed(sh.table, d, d.revision) {
      SaveDocumentChange(sh, w, d, Processing, step.at);
    } else {
      NothingChanges(sh, w);
    }
    AttemptIsStable(sh, DoPrepare(sh, x, step).0, w, w, x.attempt);
  }

  lemma PrepareSteps(w: nat, sh: Shared, x: Worker, step: Prepare)
    requires SharedInv(sh) && WorkerInv(sh, w, x) && CanPrepare(sh, x, step)
    ensures var r := DoPrepare(sh, x, step); Good(sh, r.0, w, r.1)
  {
    if step.Claim? {
      ClaimStep(w, sh, x, step);
    } else if step.Mark? {
      MarkStep(w, sh, x, step);
    } else {
      PutRecordChange(sh, w, x.attempt.Generation(), BuildingGeneration(x.attempt));
      AttemptIsStable(sh, DoPrepare(sh, x, step).0, w, w, x.attempt);
    }
  }

  lemma PutStep(w: nat, sh: Shared, x: Worker, step: Build)
    requires SharedInv(sh) && WorkerInv(sh, w, x) && CanBuild(sh, x, step) && (step.PutChunk? || step.PutVectors?)
    ensures var r := DoBuild(sh, x, step); Good(sh, r.0, w, r.1)
  {
    var sh' := DoBuild(sh, x, step).0;
    assert forall p :: SameData(sh, sh', p);
    PutObjectsChange(sh, sh', w);
    AttemptIsStable(sh, sh', w, w, x.attempt);
  }

  lemma SaveReadyStep(w: nat, sh: Shared, x: Worker, step: Build)
    requires SharedInv(sh) && WorkerInv(sh, w, x) && CanBuild(sh, x, step) && step.SaveReady?
    ensures var r := DoBuild(sh, x, step); Good(sh, r.0, w, r.1)
  {
    PutRecordChange(sh, w, x.attempt.Generation(), ReadyGeneration(x.attempt, x.count, step.readyAt));
    AttemptIsStable(sh, DoBuild(sh, x, step).0, w, w, x.attempt);
  }

  lemma BuildSteps(w: nat, sh: Shared, x: Worker, step: Build)
    requires SharedInv(sh) && WorkerInv(sh, w, x) && CanBuild(sh, x, step)
    ensures var r := DoBuild(sh, x, step); Good(sh, r.0, w, r.1)
  {
    if step.PutChunk? || step.PutVectors? {
      PutStep(w, sh, x, step);
    } else if step.SaveReady? {
      SaveReadyStep(w, sh, x, step);
    } else {
      NothingChanges(sh, w);
    }
  }

  /** The transaction changes one document, one generation, one job and one marker. */
  lemma CommitGuarantee(w: nat, sh: Shared, x: Worker, lost: bool)
    requires SharedInv(sh) && WorkerInv(sh, w, x) && CanPublish(sh, x, CommitActivation(lost))
    ensures Guarantee(sh, DoPublish(sh, x, CommitActivation(lost)).0, w)
  {
    var a := x.attempt;
    var sh' := DoPublish(sh, x, CommitActivation(lost)).0;
    assert forall g :: AttemptKept(sh, sh', g);
    forall k ensures DocumentKept(sh, sh', k) {
      if k == a.document.Key() {
        assert DocumentInv(sh, k);
        assert DocumentWritten(sh.table.documents[k], sh'.table.documents[k]);
      }
    }
    assert forall g :: PublicationKept(sh, sh', w, g);
    forall g ensures GenerationKept(sh, sh', w, g) {
      if g != a.Generation() { assert SameData(sh, sh', g); }
    }
    assert forall k :: JobKept(sh, sh', k);
    forall k ensures MarkerKept(sh, sh', w, k) {
      assert MarkerCoherent(sh.table, k);
    }
  }

  lemma CommitIsSafe(w: nat, sh: Shared, x: Worker, lost: bool)
    requires SharedInv(sh) && WorkerInv(sh, w, x) && CanPublish(sh, x, CommitActivation(lost))
    ensures Safe(sh, DoPublish(sh, x, CommitActivation(lost)).0, w)
  {
    var sh' := DoPublish(sh, x, CommitActivation(lost)).0;
    var a, c := x.attempt, x.candidate;
    var g := a.Generation();
    CommitGuarantee(w, sh, x, lost);
    ActivateKeepsCoherence(sh.table, ReadyGeneration(a, c.count, c.readyAt), SucceededJob(a, c.count, c.completedAt),
                           c.revision, c.completedAt);
    forall k ensures LeaseInv(sh', k) { assert LeaseInv(sh, k); }
    forall k ensures RunningJobInv(sh', k) { assert RunningJobInv(sh, k); }
    forall k ensures DocumentInv(sh', k) {
      assert DocumentInv(sh, k);
      if k != a.document.Key() && k in sh.table.documents {
        DocumentInvFollows(sh, sh', w, k);
      }
    }
    forall p ensures PublishedInv(sh', p) {
      if p in sh.published { PublishedInvFollows(sh, sh', w, p); }
    }
  }

  lemma CommitPoint(w: nat, sh: Shared, x: Worker, lost: bool)
    requires SharedInv(sh) && WorkerInv(sh, w, x) && CanPublish(sh, x, CommitActivation(lost))
    ensures var r := DoPublish(sh, x, CommitActivation(lost)); PointInv(r.0, w, r.1)
  {
    assert DocumentInv(sh, x.attempt.document.Key());
    assert RunningJobInv(sh, JobKey(x.attempt.document.tenant, x.attempt.command.job));
    assert JobCoherent(sh.table, JobKey(x.attempt.document.tenant, x.attempt.command.job));
  }

  /** A reconciliation read that does not match means that the generation is not published,
      or has been replaced. */
  lemma ReconcileStep(w: nat, sh: Shared, x: Worker)
    requires SharedInv(sh) && WorkerInv(sh, w, x) && x.Reconciling?
    ensures WorkerInv(sh, w, DoPublish(sh, x, Reconcile).1)
  {
    var g := x.attempt.Generation();
    assert DocumentInv(sh, x.attempt.document.Key());
    assert DocumentKeyOf(g) == x.attempt.document.Key();
  }

  lemma PublishSteps(w: nat, sh: Shared, x: Worker, step: Publish)
    requires SharedInv(sh) && WorkerInv(sh, w, x) && CanPublish(sh, x, step)
    ensures var r := DoPublish(sh, x, step); Good(sh, r.0, w, r.1)
  {
    match step
    case CommitActivation(lost) =>
      CommitIsSafe(w, sh, x, lost);
      CommitPoint(w, sh, x, lost);
      AttemptIsStable(sh, DoPublish(sh, x, step).0, w, w, x.attempt);
    case ActivationUnknown => NothingChanges(sh, w);
    case Reconcile => NothingChanges(sh, w); ReconcileStep(w, sh, x);
  }

  /** The generation that was active when the document was read has been replaced by now. */
  lemma PreviousIsReplaced(w: nat, sh: Shared, x: Worker)
    requires WorkerInv(sh, w, x) && x.Superseding? && x.attempt.document.activeGeneration.Some?
    ensures Replaced(sh, x.attempt.document.activeGeneration.value)
  {
    var d := x.attempt.document;
    assert DocumentKeyOf(d.activeGeneration.value) == d.Key();
  }

  lemma SupersedeSteps(w: nat, sh: Shared, x: Worker, step: Supersede)
    requires SharedInv(sh) && WorkerInv(sh, w, x) && CanSupersede(sh, x, step)
    ensures var r := DoSupersede(sh, x, step); Good(sh, r.0, w, r.1)
  {
    var r := DoSupersede(sh, x, step);
    match step {
      case SavePrevious =>
        PreviousIsReplaced(w, sh, x);
        PutRecordChange(sh, w, x.attempt.document.activeGeneration.value, x.previous.value.(status := Superseded));
      case DeletePrevious(chunks, vectors) =>
        PreviousIsReplaced(w, sh, x);
        DeleteObjectsChange(sh, w, x.attempt.document.activeGeneration.value, chunks, vectors);
      case _ => NothingChanges(sh, w);
    }
    AttemptIsStable(sh, r.0, w, w, x.attempt);
  }

  lemma CleanSteps(w: nat, sh: Shared, x: Worker, step: Recover)
    requires SharedInv(sh) && WorkerInv(sh, w, x) && CanRecover(sh, x, step)
    requires step.DeleteCandidate? || step.CandidateDone? || step.FailGeneration?
    ensures var r := DoRecover(sh, x, step); Good(sh, r.0, w, r.1)
  {
    var a := x.attempt;
    if step.DeleteCandidate? {
      DeleteObjectsChange(sh, w, a.Generation(), step.chunks, step.vectors);
    } else if step.FailGeneration? && step.saved {
      PutRecordChange(sh, w, a.Generation(), BuildingGeneration(a).(status := GenerationFailed));
    } else {
      NothingChanges(sh, w);
    }
    AttemptIsStable(sh, DoRecover(sh, x, step).0, w, w, a);
  }

  lemma RestoreSteps(w: nat, sh: Shared, x: Worker, step: Recover)
    requires SharedInv(sh) && WorkerInv(sh, w, x) && CanRecover(sh, x, step)
             && (step.ReadCurrent? || step.SaveRestored?)
    ensures var r := DoRecover(sh, x, step); Good(sh, r.0, w, r.1)
  {
    if step.SaveRestored? && SaveDocumentAllowed(sh.table, x.current, x.current.revision) {
      SaveDocumentChange(sh, w, x.current, DocumentFailed, step.at);
    } else {
      NothingChanges(sh, w);
      assert DocumentInv(sh, x.attempt.document.Key());
    }
    AttemptIsStable(sh, DoRecover(sh, x, step).0, w, w, x.attempt);
  }

  lemma SaveFailureStep(w: nat, sh: Shared, x: Worker, step: Recover)
    requires SharedInv(sh) && WorkerInv(sh, w, x) && CanRecover(sh, x, step) && step.SaveFailure?
    ensures var r := DoRecover(sh, x, step); Good(sh, r.0, w, r.1)
  {
    var job := FailedJob(x.attempt, step.error, step.at);
    if SaveAllowed(sh.table, job) {
      PutJobChange(sh, w, job);
    } else {
      NothingChanges(sh, w);
    }
    AttemptIsStable(sh, DoRecover(sh, x, step).0, w, w, x.attempt);
  }

  lemma RecoverSteps(w: nat, sh: Shared, x: Worker, step: Recover)
    requires SharedInv(sh) && WorkerInv(sh, w, x) && CanRecover(sh, x, step)
    ensures var r := DoRecover(sh, x, step); Good(sh, r.0, w, r.1)
  {
    if step.SaveFailure? {
      SaveFailureStep(w, sh, x, step);
    } else if step.ReadCurrent? || step.SaveRestored? {
      RestoreSteps(w, sh, x, step);
    } else {
      CleanSteps(w, sh, x, step);
    }
  }

  lemma ReleaseStep(w: nat, sh: Shared, key: LeaseKey, owner: string, token: nat)
    requires SharedInv(sh)
    ensures Safe(sh,
                 if ReleaseAllowed(sh.table, key, owner, token) then WithTable(sh, Release(sh.table, key)) else sh, w)
  {
    if ReleaseAllowed(sh.table, key, owner, token) { ReleaseChange(sh, w, key); } else { NothingChanges(sh, w); }
  }

  lemma ReleaseLeaseStep(w: nat, sh: Shared, x: Worker)
    requires SharedInv(sh) && WorkerInv(sh, w, x) && x.Releasing?
    ensures var r := DoLeave(sh, x, ReleaseLease); Good(sh, r.0, w, r.1)
  {
    ReleaseStep(w, sh, x.attempt.document.LeaseOf(), x.attempt.command.job, x.attempt.token);
  }

  /** A worker knows nothing that depends on its lease. */
  lemma NothingRestsOnTheLease(sh: Shared, sh': Shared, w: nat, x: Worker)
    requires WorkerInv(sh, w, x) && sh' == sh.(table := sh.table.(leases := sh'.table.leases))
    ensures WorkerInv(sh', w, x)
  {
    assert x.Leased() ==> AttemptInv(sh', w, x.attempt);
    assert StoredInv(sh', x);
    if x.Reconciling? && x.committed {
      assert CommittedInv(sh', x.attempt, x.candidate);
    }
  }

  lemma CancelStep(w: nat, sh: Shared, x: Worker)
    requires SharedInv(sh) && WorkerInv(sh, w, x) && CanLeave(sh, x, Cancel)
    ensures Good(sh, DoLeave(sh, x, Cancel).0, w, x)
  {
    var sh' := DoLeave(sh, x, Cancel).0;
    ReleaseStep(w, sh, x.attempt.document.LeaseOf(), x.attempt.command.job, x.attempt.token);
    NothingRestsOnTheLease(sh, sh', w, x);
  }

  lemma LateChunkStep(w: nat, sh: Shared, x: Worker, i: nat)
    requires SharedInv(sh) && WorkerInv(sh, w, x) && CanLeave(sh, x, LateChunk(i))
    ensures Good(sh, DoLeave(sh, x, LateChunk(i)).0, w, x)
  {
    var sh' := DoLeave(sh, x, LateChunk(i)).0;
    assert forall p :: SameData(sh, sh', p);
    PutObjectsChange(sh, sh', w);
    OwnStep(sh, sh', w, x);
  }

  /** A deletion may land whenever it likes: what is doomed is never published afterwards. */
  lemma LateDeleteStep(w: nat, sh: Shared, x: Worker, chunks: set<nat>, vectors: set<nat>)
    requires SharedInv(sh) && WorkerInv(sh, w, x) && CanLeave(sh, x, LateDelete(chunks, vectors))
    ensures Good(sh, DoLeave(sh, x, LateDelete(chunks, vectors)).0, w, x)
  {
    DoomedIsDisposable(w, sh, x);
    DeleteObjectsChange(sh, w, Doomed(x).value, chunks, vectors);
    OwnStep(sh, DoLeave(sh, x, LateDelete(chunks, vectors)).0, w, x);
  }

  /** A step that changes nothing but data keeps what its own worker knows, if it knows of
      no data or none was deleted. */
  lemma OwnStep(sh: Shared, sh': Shared, w: nat, x: Worker)
    requires WorkerInv(sh, w, x) && sh' == sh.(chunks := sh'.chunks, vectors := sh'.vectors)
    requires Doomed(x).Some? || forall p :: SameData(sh, sh', p)
    ensures WorkerInv(sh', w, x)
  {
    if x.Leased() {
      assert Doomed(x).Some? || SameData(sh, sh', x.attempt.Generation());
    }
  }

  lemma DoomedIsDisposable(w: nat, sh: Shared, x: Worker)
    requires WorkerInv(sh, w, x) && Doomed(x).Some?
    ensures Disposable(sh, w, Doomed(x).value)
  {
    if x.Superseding? { PreviousIsReplaced(w, sh, x); }
  }

  lemma GoneKnows(w: nat, sh: Shared, last: Option<Attempt>, doomed: Option<GenerationId>)
    requires doomed.Some? ==> Disposable(sh, w, doomed.value)
    ensures WorkerInv(sh, w, Ended(last, doomed))
  {
  }

  lemma CrashStep(w: nat, sh: Shared, x: Worker)
    requires SharedInv(sh) && WorkerInv(sh, w, x)
    ensures Good(sh, sh, w, DoLeave(sh, x, Crash).1)
  {
    NothingChanges(sh, w);
    if Doomed(x).Some? { DoomedIsDisposable(w, sh, x); }
    GoneKnows(w, sh, PutsOf(x), Doomed(x));
  }

  lemma LeaveSteps(w: nat, sh: Shared, x: Worker, step: Leave)
    requires SharedInv(sh) && WorkerInv(sh, w, x) && CanLeave(sh, x, step)
    ensures var r := DoLeave(sh, x, step); Good(sh, r.0, w, r.1)
  {
    match step
    case LateChunk(i) => LateChunkStep(w, sh, x, i);
    case LateDelete(chunks, vectors) => LateDeleteStep(w, sh, x, chunks, vectors);
    case Crash => CrashStep(w, sh, x);
    case ReleaseLease => ReleaseLeaseStep(w, sh, x);
    case Cancel => CancelStep(w, sh, x);
  }

  lemma SubmitPendingStep(w: nat, sh: Shared, x: Worker, modelAlias: string, pipelineVersion: string, at: int)
    requires SharedInv(sh) && x.Enrolling?
    ensures var r := DoSubmit(DurableCounter, w, sh, x, SubmitPending(modelAlias, pipelineVersion, at));
            Good(sh, r.0, w, r.1)
  {
    var job := PendingJob(x.document, x.job, modelAlias, pipelineVersion, at);
    if SubmitAllowed(sh.table, job) { SubmitChange(sh, w, job); } else { NothingChanges(sh, w); }
  }

  lemma AcquireSubmissionStep(source: TokenSource, w: nat, sh: Shared, x: Worker, step: Submission)
    requires SharedInv(sh) && x.LeasingSubmission? && ReadEarlier(sh, x.document)
    requires step.AcquireSubmission? && CanSubmit(sh, x, step)
    ensures var r := DoSubmit(source, w, sh, x, step); Good(sh, r.0, w, r.1)
  {
    var key := x.document.LeaseOf();
    var lease := Lease(SubmissionOwner(x.job), NextToken(source, sh, key), step.execution, step.expiresAt);
    GrantChange(sh, w, key, lease);
    ReadEarlierIsStable(sh, GrantLease(sh, key, lease), w, x.document);
  }

  lemma SaveUploadedStep(w: nat, sh: Shared, x: Worker, at: int, lost: bool)
    requires SharedInv(sh) && x.Uploading? && ReadEarlier(sh, x.document)
    ensures var r := DoSubmit(DurableCounter, w, sh, x, SaveUploaded(at, lost)); Good(sh, r.0, w, r.1)
  {
    if x.document.status == PendingUpload && SaveDocumentAllowed(sh.table, x.document, x.document.revision) {
      SaveDocumentChange(sh, w, x.document, Uploaded, at);
    } else {
      NothingChanges(sh, w);
    }
  }

  lemma ReadForSubmissionStep(w: nat, sh: Shared, x: Worker)
    requires SharedInv(sh) && x.Requested?
    ensures Good(sh, sh, w, DoSubmit(DurableCounter, w, sh, x, ReadForSubmission).1)
  {
    NothingChanges(sh, w);
    assert DocumentInv(sh, DocumentKey(x.tenant, x.documentId));
  }

  lemma ReleaseSubmissionStep(w: nat, sh: Shared, x: Worker)
    requires SharedInv(sh) && CanSubmit(sh, x, ReleaseSubmission)
    ensures var r := DoSubmit(DurableCounter, w, sh, x, ReleaseSubmission); Good(sh, r.0, w, r.1)
  {
    ReleaseStep(w, sh, x.document.LeaseOf(), SubmissionOwner(x.job), x.token);
  }

  lemma SubmitSteps(source: TokenSource, w: nat, sh: Shared, x: Worker, step: Submission)
    requires SharedInv(sh) && WorkerInv(sh, w, x) && CanSubmit(sh, x, step)
    ensures var r := DoSubmit(source, w, sh, x, step); Good(sh, r.0, w, r.1)
  {
    if step.ReadForSubmission? {
      ReadForSubmissionStep(w, sh, x);
    } else if step.AcquireSubmission? {
      AcquireSubmissionStep(source, w, sh, x, step);
    } else if step.SaveUploaded? {
      SaveUploadedStep(w, sh, x, step.at, step.lost);
    } else if step.SubmitPending? {
      SubmitPendingStep(w, sh, x, step.modelAlias, step.pipelineVersion, step.at);
    } else {
      ReleaseSubmissionStep(w, sh, x);
    }
  }

  lemma EarlyMoveIsGood(source: TokenSource, w: nat, sh: Shared, x: Worker, move: Move)
    requires SharedInv(sh) && WorkerInv(sh, w, x) && Enabled(sh, x, move)
    requires move.Preparation? || move.Construction? || move.Publication?
    ensures var r := Act(source, w, sh, x, move); Good(sh, r.0, w, r.1)
  {
    match move
    case Preparation(step) => PrepareSteps(w, sh, x, step);
    case Construction(step) => BuildSteps(w, sh, x, step);
    case Publication(step) => PublishSteps(w, sh, x, step);
  }

  lemma LateMoveIsGood(source: TokenSource, w: nat, sh: Shared, x: Worker, move: Move)
    requires SharedInv(sh) && WorkerInv(sh, w, x) && Enabled(sh, x, move)
    requires move.Supersession? || move.Recovery? || move.Leaving?
    ensures var r := Act(source, w, sh, x, move); Good(sh, r.0, w, r.1)
  {
    match move
    case Supersession(step) => SupersedeSteps(w, sh, x, step);
    case Recovery(step) => RecoverSteps(w, sh, x, step);
    case Leaving(step) => LeaveSteps(w, sh, x, step);
  }

  /** The step lemma: one move of worker w, under the hypothesis on a new attempt. */
  lemma MoveIsGood(source: TokenSource, w: nat, sh: Shared, x: Worker, move: Move)
    requires SharedInv(sh) && WorkerInv(sh, w, x) && Enabled(sh, x, move)
    requires BeginsAttempt(move) ==> NextAttempt(source, sh, x, move.begin.now).Generation() !in sh.attempts
    ensures var r := Act(source, w, sh, x, move); Good(sh, r.0, w, r.1)
  {
    match move
    case Beginning(step) => BeginSteps(source, w, sh, x, step);
    case Submitting(step) => SubmitSteps(source, w, sh, x, step);
    case Supersession(_) => LateMoveIsGood(source, w, sh, x, move);
    case Recovery(_) => LateMoveIsGood(source, w, sh, x, move);
    case Leaving(_) => LateMoveIsGood(source, w, sh, x, move);
    case _ => EarlyMoveIsGood(source, w, sh, x, move);
  }

  lemma OutsideIsGood(sh: Shared, o: Outside, w: nat)
    requires SharedInv(sh) && OutsideEnabled(sh, o)
    ensures Safe(sh, ActOutside(sh, o), w)
  {
    var sh' := ActOutside(sh, o);
    match o
    case Register(d) =>
      OtherItemsKeepCoherence(sh.table, sh'.table);
      assert forall p :: AttemptKept(sh, sh', p);
      assert forall k :: DocumentKept(sh, sh', k);
      assert forall p :: PublicationKept(sh, sh', w, p);
      forall p ensures GenerationKept(sh, sh', w, p) { assert SameData(sh, sh', p); }
      assert forall k :: JobKept(sh, sh', k);
      assert forall k :: MarkerKept(sh, sh', w, k);
      forall k ensures LeaseInv(sh', k) { assert LeaseInv(sh, k); }
      forall k ensures RunningJobInv(sh', k) { assert RunningJobInv(sh, k); }
      forall k ensures DocumentInv(sh', k) {
        assert DocumentInv(sh, k);
        if k in sh.table.documents { DocumentInvFollows(sh, sh', w, k); }
      }
      forall g ensures PublishedInv(sh', g) {
        if g in sh.published { PublishedInvFollows(sh, sh', w, g); }
      }
    case Heartbeat(_, _, _, _, _, _) =>
      assert forall p :: AttemptKept(sh, sh', p);
      forall k ensures LeaseInv(sh', k) { assert LeaseInv(sh, k); }
      LeaseChange(sh, sh', w);
    case RecordFailure(job) => PutJobChange(sh, w, job);
  }
}
