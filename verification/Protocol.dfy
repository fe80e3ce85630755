/** The publication protocol as a state machine.  Any number of ingestion workers and
    submission requests run the programs of DocumentIngestionService.ingest and
    DocumentManagementService.submit_ingestion against one control table and two data
    stores, one table write, read or object change at a time.

    Every clock reading is an arbitrary argument of its step, so nothing below depends on
    synchronised clocks.  A step with lost == true commits its write and then reports an
    error to the worker. */
module Protocol {
  import opened Entities
  import opened ControlTable

  /** The two lease repositories differ in where the next fencing token comes from. */
  datatype TokenSource =
    | DurableCounter         // the in-memory repository: a counter that survives release
    | RestartsAfterRelease   // the DynamoDB repository: the token of the stored item, if any

  datatype Command = Command(
    tenant: string, document: string, job: string, pipeline: string, modelAlias: string,
    pipelineVersion: string, execution: string)

  /** One execution of ingest that was granted a lease. */
  datatype Attempt = Attempt(command: Command, document: Document, token: nat, startedAt: int)
  {
    function Fingerprint(): Fingerprint { FingerprintOf(document, command) }
    function Generation(): GenerationId { GenerationId(Fingerprint(), command.job, token) }
  }

  /** A token that was granted for a key. */
  datatype Grant = Grant(key: LeaseKey, token: nat)

  function FingerprintOf(d: Document, c: Command): Fingerprint {
    Fingerprint(d.tenant, d.id, d.sourceVersion, d.metadata, c.pipeline)
  }

  function LeaseKeyOf(g: GenerationId): LeaseKey {
    LeaseKey(g.fingerprint.tenant, g.fingerprint.document, g.fingerprint.sourceVersion)
  }

  function DocumentKeyOf(g: GenerationId): DocumentKey {
    DocumentKey(g.fingerprint.tenant, g.fingerprint.document)
  }

  function GenerationKeyOf(g: GenerationId): GenerationKey {
    GenerationKey(g.fingerprint.tenant, g.fingerprint.document, g)
  }

  function MarkerKeyOf(f: Fingerprint): MarkerKey {
    MarkerKey(f.tenant, f)
  }

  function RunningJob(a: Attempt): Job {
    Job(a.document.tenant, a.command.job, a.document.id, a.document.sourceVersion, Running, 0, 0, None,
        Some(a.Fingerprint()), Some(a.Generation()), Some(a.command.modelAlias), Some(a.command.pipelineVersion),
        Some(a.token), a.startedAt, None)
  }

  function PendingJob(d: Document, job: string, modelAlias: string, pipelineVersion: string, at: int): Job {
    Job(d.tenant, job, d.id, d.sourceVersion, Pending, 0, 0, None, None, None, Some(modelAlias), Some(pipelineVersion),
        None, at, None)
  }

  function SucceededJob(a: Attempt, count: nat, at: int): Job {
    RunningJob(a).(status := Succeeded, chunksCreated := count, vectorsCreated := count, completedAt := Some(at))
  }

  function FailedJob(a: Attempt, error: string, at: int): Job {
    RunningJob(a).(status := Failed, errorCode := Some(error), completedAt := Some(at))
  }

  function BuildingGeneration(a: Attempt): Generation {
    Generation(a.document.tenant, a.document.id, a.document.sourceVersion, a.Generation(), a.Fingerprint(),
               Building, a.token, 0, 0, a.startedAt, None, None)
  }

  function ReadyGeneration(a: Attempt, count: nat, at: int): Generation {
    BuildingGeneration(a).(status := Ready, chunkCount := count, vectorCount := count, readyAt := Some(at))
  }

  function ActiveGeneration(a: Attempt, count: nat, readyAt: int, at: int): Generation {
    ReadyGeneration(a, count, readyAt).(status := Active, activatedAt := Some(at))
  }

  /** What an attempt carries from its ready generation into activation. */
  datatype Candidate = Candidate(revision: nat, count: nat, readyAt: int, completedAt: int)

  /** Program counter and locals of one worker. */
  datatype Worker =
    // ingest, before the lease
    | Starting(command: Command)
    | Looking(command: Command, document: Document)
    | Acquiring(command: Command, document: Document)
    // ingest, inside the outer try: only the lease is released on the way out
    | Claiming(attempt: Attempt)
    | Recording(attempt: Attempt)
    | Marking(attempt: Attempt)
    // ingest, inside the inner try: an error leads to Cleaning
    | Preparing(attempt: Attempt, revision: nat)
    | Storing(attempt: Attempt, revision: nat, count: nat, chunks: set<nat>, vectors: set<nat>)
    | Readying(attempt: Attempt, revision: nat, count: nat)
    | Activating(attempt: Attempt, candidate: Candidate)
    | Reconciling(attempt: Attempt, candidate: Candidate, committed: bool, stage: nat)
    | Superseding(attempt: Attempt, previous: Option<Generation>)
    // ingest, the except block
    | Cleaning(attempt: Attempt)
    | FailingGeneration(attempt: Attempt)
    | Restoring(attempt: Attempt)
    | SavingRestored(attempt: Attempt, current: Document)
    | SavingFailure(attempt: Attempt)
    // the finally block; doomed is the generation whose deletion may still be on its way
    | Releasing(attempt: Attempt, doomed: Option<GenerationId>)
    // submit_ingestion
    | Requested(tenant: string, documentId: string, job: string)
    | LeasingSubmission(document: Document, job: string)
    | Uploading(document: Document, job: string, token: nat)
    | Enrolling(document: Document, job: string, token: nat)
    | ReleasingSubmission(document: Document, job: string, token: nat)
    // returned, raised or crashed
    | Ended(last: Option<Attempt>, doomed: Option<GenerationId>)
  {
    predicate Leased() {
      Claiming? || Recording? || Marking? || Preparing? || Storing? || Readying? || Activating? || Reconciling?
      || Superseding? || Cleaning? || FailingGeneration? || Restoring?
      || SavingRestored? || SavingFailure? || Releasing?
    }

    /** Its activation has not committed and may still. */
    predicate Unsettled() {
      Claiming? || Recording? || Marking? || Preparing? || Storing? || Readying? || Activating?
      || (Reconciling? && !committed)
    }
  }

  /** Control table, chunk store and vector store, and four history variables that no
      program reads under RestartsAfterRelease: the tokens granted, the token granted last
      for each key, the workers whose attempts build a generation, and the generations that
      were ever activated. */
  datatype Shared = Shared(
    table: Table,
    chunks: map<GenerationId, set<nat>>,
    vectors: map<GenerationId, set<nat>>,
    grants: set<Grant>,
    latest: map<LeaseKey, nat>,
    attempts: map<GenerationId, nat>,
    published: set<GenerationId>)

  function StoredIn(m: map<GenerationId, set<nat>>, g: GenerationId): set<nat> {
    if g in m then m[g] else {}
  }

  predicate AllStored(m: map<GenerationId, set<nat>>, g: GenerationId, count: nat) {
    forall i: nat :: i < count ==> i in StoredIn(m, g)
  }

  /** The atomic steps of a worker's program, phase by phase. */
  datatype Begin = ReadDocument | FindPrevious(found: bool) | Acquire(now: int, expiresAt: int, lost: bool)

  datatype Prepare = Claim(lost: bool) | Record(lost: bool) | Mark(at: int, lost: bool)

  datatype Build =
    | Extract(count: nat)
    | PutChunk(i: nat, lost: bool)
    | PutVectors(batch: set<nat>, lost: bool)
    | AllPut
    | SaveReady(readyAt: int, completedAt: int, lost: bool)
    | Raise

  datatype Publish = CommitActivation(lost: bool) | ActivationUnknown | Reconcile

  datatype Supersede = ReadPrevious | SavePrevious | DeletePrevious(chunks: set<nat>, vectors: set<nat>) | PreviousDone

  datatype Recover =
    | DeleteCandidate(chunks: set<nat>, vectors: set<nat>)
    | CandidateDone
    | FailGeneration(saved: bool)
    | ReadCurrent
    | SaveRestored(at: int)
    | SaveFailure(error: string, at: int)

  datatype Leave =
    | ReleaseLease
    | Cancel
    | Crash
    | LateChunk(i: nat)
    | LateDelete(chunks: set<nat>, vectors: set<nat>)

  datatype Submission =
    | ReadForSubmission
    | AcquireSubmission(now: int, expiresAt: int, execution: string, lost: bool)
    | SaveUploaded(at: int, lost: bool)
    | SubmitPending(modelAlias: string, pipelineVersion: string, at: int)
    | ReleaseSubmission

  datatype Move =
    | Beginning(begin: Begin)
    | Preparation(prepare: Prepare)
    | Construction(build: Build)
    | Publication(publish: Publish)
    | Supersession(supersede: Supersede)
    | Recovery(recover: Recover)
    | Leaving(leave: Leave)
    | Submitting(submission: Submission)

  predicate Ingestable(d: Document) {
    d.status == Uploaded || d.status == Processing || d.status == DocumentFailed || d.status == Indexed
  }

  function NextToken(source: TokenSource, sh: Shared, key: LeaseKey): nat {
    match source
    case DurableCounter => (if key in sh.latest then sh.latest[key] else 0) + 1
    case RestartsAfterRelease => TokenAfterItem(sh.table, key)
  }

  /** The four reads made after a lost activation response, in the order of the source. */
  predicate ReadMatches(t: Table, a: Attempt, c: Candidate, read: nat) {
    ActivationRead(t, ReadyGeneration(a, c.count, c.readyAt), SucceededJob(a, c.count, c.completedAt),
                   c.revision, c.completedAt, read)
  }

  predicate Activatable(t: Table, a: Attempt, c: Candidate) {
    ActivationAllowed(t, ReadyGeneration(a, c.count, c.readyAt), SucceededJob(a, c.count, c.completedAt),
                      c.revision, c.completedAt)
  }

  function WithTable(sh: Shared, t: Table): Shared {
    sh.(table := t)
  }

  function PutObjects(m: map<GenerationId, set<nat>>, g: GenerationId, xs: set<nat>): map<GenerationId, set<nat>> {
    m[g := StoredIn(m, g) + xs]
  }

  function DeleteObjects(sh: Shared, g: GenerationId, chunks: set<nat>, vectors: set<nat>): Shared {
    sh.(chunks := sh.chunks[g := StoredIn(sh.chunks, g) - chunks],
        vectors := sh.vectors[g := StoredIn(sh.vectors, g) - vectors])
  }

  function GrantLease(sh: Shared, key: LeaseKey, lease: Lease): Shared {
    sh.(table := sh.table.(leases := sh.table.leases[key := lease]),
        grants := sh.grants + {Grant(key, lease.token)},
        latest := sh.latest[key := lease.token])
  }

  /** Worker w was told its token and goes on with attempt a. */
  function Begun(sh: Shared, w: nat, a: Attempt): Shared {
    sh.(attempts := sh.attempts[a.Generation() := w])
  }

  /** The attempt that an asking worker makes if its lease is granted. */
  function NextAttempt(source: TokenSource, sh: Shared, x: Worker, now: int): Attempt
    requires x.Acquiring?
  {
    Attempt(x.command, x.document, NextToken(source, sh, x.document.LeaseOf()), now)
  }

  /** Nobody was granted anything. */
  predicate SameHistory(sh: Shared, sh': Shared) {
    sh'.grants == sh.grants && sh'.latest == sh.latest && sh'.attempts == sh.attempts
  }

  /** Read the document, look for a finished job, take the lease. */
  predicate CanBegin(sh: Shared, x: Worker, step: Begin) {
    match step
    case ReadDocument => x.Starting?
    case FindPrevious(_) => x.Looking?
    case Acquire(now, expiresAt, _) =>
      x.Acquiring? && now < expiresAt && AcquireAllowed(sh.table, x.document.LeaseOf(), now)
  }

  function DoBegin(source: TokenSource, w: nat, sh: Shared, x: Worker, step: Begin): (r: (Shared, Worker))
    requires CanBegin(sh, x, step)
    ensures r.0.table == sh.table.(leases := r.0.table.leases) && r.0.published == sh.published
    ensures !step.Acquire? ==> SameHistory(sh, r.0)
  {
    match step
    case ReadDocument =>
      var key := DocumentKey(x.command.tenant, x.command.document);
      if key in sh.table.documents && Ingestable(sh.table.documents[key])
      then (sh, Looking(x.command, sh.table.documents[key]))
      else (sh, Ended(None, None))
    case FindPrevious(found) =>
      // The answer of find_by_fingerprint only ends the attempt early; it is left open.
      (sh, if found then Ended(None, None) else Acquiring(x.command, x.document))
    case Acquire(now, expiresAt, lost) =>
      var a := NextAttempt(source, sh, x, now);
      var leased := GrantLease(sh, x.document.LeaseOf(), Lease(x.command.job, a.token, x.command.execution, expiresAt));
      if lost then (leased, Ended(None, None)) else (Begun(leased, w, a), Claiming(a))
  }

  /** Claim the job, record the generation, mark the document. */
  predicate CanPrepare(sh: Shared, x: Worker, step: Prepare) {
    match step
    case Claim(_) => x.Claiming?
    case Record(_) => x.Recording?
    case Mark(_, _) => x.Marking?
  }

  function DoPrepare(sh: Shared, x: Worker, step: Prepare): (r: (Shared, Worker))
    requires CanPrepare(sh, x, step)
    ensures !step.Mark? ==> r.0.table.documents == sh.table.documents
    ensures r.0.published == sh.published
    ensures r.1.Leased() && r.1.attempt == x.attempt
    ensures r.0.table.leases == sh.table.leases
    ensures SameHistory(sh, r.0)
  {
    match step
    case Claim(lost) =>
      var job := RunningJob(x.attempt);
      if ClaimAllowed(sh.table, job)
      then (WithTable(sh, PutJob(sh.table, job)), if lost then Releasing(x.attempt, None) else Recording(x.attempt))
      else (sh, Releasing(x.attempt, None))
    case Record(lost) =>
      (WithTable(sh, PutGeneration(sh.table, BuildingGeneration(x.attempt))),
       if lost then Releasing(x.attempt, None) else Marking(x.attempt))
    case Mark(at, lost) =>
      var d := x.attempt.document;
      if d.activeGeneration.Some? then (sh, Preparing(x.attempt, d.revision))
      else if SaveDocumentAllowed(sh.table, d, d.revision)
      then (WithTable(sh, SaveDocument(sh.table, d.(status := Processing, updatedAt := at), d.revision)),
            if lost then Releasing(x.attempt, None) else Preparing(x.attempt, d.revision + 1))
      else (sh, Releasing(x.attempt, None))
  }

  /** Extract and embed, store the objects, mark the generation ready. */
  predicate CanBuild(sh: Shared, x: Worker, step: Build) {
    match step
    case Extract(count) => x.Preparing? && count > 0
    case PutChunk(i, _) => x.Storing? && i < x.count
    case PutVectors(batch, _) =>
      x.Storing? && (forall i: nat :: i < x.count ==> i in x.chunks) && (forall i :: i in batch ==> i < x.count)
    case AllPut =>
      x.Storing? && (forall i: nat :: i < x.count ==> i in x.chunks)
      && (forall i: nat :: i < x.count ==> i in x.vectors)
    case SaveReady(_, _, _) => x.Readying?
    case Raise => x.Preparing? || x.Storing? || x.Readying? || x.Activating?
  }

  function DoBuild(sh: Shared, x: Worker, step: Build): (r: (Shared, Worker))
    requires CanBuild(sh, x, step)
    ensures r.0.table == sh.table.(generations := r.0.table.generations) && r.0.published == sh.published
    ensures r.1.Leased() && r.1.attempt == x.attempt
    ensures SameHistory(sh, r.0)
  {
    match step
    case Extract(count) => (sh, Storing(x.attempt, x.revision, count, {}, {}))
    case PutChunk(i, lost) =>
      (sh.(chunks := PutObjects(sh.chunks, x.attempt.Generation(), {i})),
       if lost then Cleaning(x.attempt) else x.(chunks := x.chunks + {i}))
    case PutVectors(batch, lost) =>
      (sh.(vectors := PutObjects(sh.vectors, x.attempt.Generation(), batch)),
       if lost then Cleaning(x.attempt) else x.(vectors := x.vectors + batch))
    case AllPut => (sh, Readying(x.attempt, x.revision, x.count))
    case SaveReady(readyAt, completedAt, lost) =>
      (WithTable(sh, PutGeneration(sh.table, ReadyGeneration(x.attempt, x.count, readyAt))),
       if lost then Cleaning(x.attempt)
       else Activating(x.attempt, Candidate(x.revision, x.count, readyAt, completedAt)))
    case Raise => (sh, Cleaning(x.attempt))
  }

  /** The activation transaction, and the reads that follow an unknown outcome. */
  predicate CanPublish(sh: Shared, x: Worker, step: Publish) {
    match step
    case CommitActivation(_) => x.Activating? && Activatable(sh.table, x.attempt, x.candidate)
    case ActivationUnknown => x.Activating?
    case Reconcile => x.Reconciling?
  }

  function DoPublish(sh: Shared, x: Worker, step: Publish): (r: (Shared, Worker))
    requires CanPublish(sh, x, step)
    ensures !step.CommitActivation? ==> r.0 == sh
    ensures r.1.Leased() && r.1.attempt == x.attempt
    ensures r.0.table.leases == sh.table.leases
    ensures SameHistory(sh, r.0)
  {
    var a, c := x.attempt, x.candidate;
    match step
    case CommitActivation(lost) =>
      var t := Activate(sh.table, ReadyGeneration(a, c.count, c.readyAt), SucceededJob(a, c.count, c.completedAt),
                        c.revision, c.completedAt);
      (sh.(table := t, published := sh.published + {a.Generation()}),
       if lost then Reconciling(a, c, true, 0) else Superseding(a, None))
    case ActivationUnknown => (sh, Reconciling(a, c, false, 0))
    case Reconcile =>
      (sh, if !ReadMatches(sh.table, a, c, x.stage) then Cleaning(a)
           else if x.stage < 3 then x.(stage := x.stage + 1)
           else Superseding(a, None))
  }

  /** Best-effort removal of the generation that was active when the document was read. */
  predicate CanSupersede(sh: Shared, x: Worker, step: Supersede) {
    && x.Superseding?
    && (!step.PreviousDone? ==>
          && x.attempt.document.activeGeneration.Some?
          && x.attempt.document.activeGeneration.value != x.attempt.Generation())
    && (step.SavePrevious? ==> x.previous.Some?)
  }

  function DoSupersede(sh: Shared, x: Worker, step: Supersede): (r: (Shared, Worker))
    requires CanSupersede(sh, x, step)
    ensures r.0.table == sh.table.(generations := r.0.table.generations) && r.0.published == sh.published
    ensures r.1.Leased() && r.1.attempt == x.attempt
    ensures SameHistory(sh, r.0)
  {
    match step
    case ReadPrevious =>
      var key := GenerationKeyOf(x.attempt.document.activeGeneration.value);
      (sh, x.(previous := if key in sh.table.generations then Some(sh.table.generations[key]) else None))
    case SavePrevious =>
      var key := GenerationKeyOf(x.attempt.document.activeGeneration.value);
      (WithTable(sh, sh.table.(generations := sh.table.generations[key := x.previous.value.(status := Superseded)])),
       x.(previous := None))
    case DeletePrevious(chunks, vectors) =>
      (DeleteObjects(sh, x.attempt.document.activeGeneration.value, chunks, vectors), x)
    case PreviousDone => (sh, Releasing(x.attempt, Doomed(x)))
  }

  /** The except block: delete the candidate, fail its record, restore the document, fail the job. */
  predicate CanRecover(sh: Shared, x: Worker, step: Recover) {
    match step
    case DeleteCandidate(_, _) => x.Cleaning?
    case CandidateDone => x.Cleaning?
    case FailGeneration(_) => x.FailingGeneration?
    case ReadCurrent => x.Restoring?
    case SaveRestored(_) => x.SavingRestored?
    case SaveFailure(_, _) => x.SavingFailure?
  }

  function DoRecover(sh: Shared, x: Worker, step: Recover): (r: (Shared, Worker))
    requires CanRecover(sh, x, step)
    ensures !step.SaveRestored? ==> r.0.table.documents == sh.table.documents
    ensures r.0.published == sh.published
    ensures r.1.Leased() && r.1.attempt == x.attempt
    ensures r.0.table.leases == sh.table.leases
    ensures SameHistory(sh, r.0)
  {
    match step
    case DeleteCandidate(chunks, vectors) => (DeleteObjects(sh, x.attempt.Generation(), chunks, vectors), x)
    case CandidateDone => (sh, FailingGeneration(x.attempt))
    case FailGeneration(saved) =>
      (if saved then WithTable(sh, PutGeneration(sh.table, BuildingGeneration(x.attempt).(status := GenerationFailed)))
       else sh,
       Restoring(x.attempt))
    case ReadCurrent =>
      var key := x.attempt.document.Key();
      if && key in sh.table.documents
         && sh.table.documents[key].status == Processing
         && sh.table.documents[key].activeGeneration.None?
      then (sh, SavingRestored(x.attempt, sh.table.documents[key]))
      else (sh, SavingFailure(x.attempt))
    case SaveRestored(at) =>
      (if SaveDocumentAllowed(sh.table, x.current, x.current.revision)
       then WithTable(sh, SaveDocument(sh.table, x.current.(status := DocumentFailed, updatedAt := at),
                                       x.current.revision))
       else sh,
       SavingFailure(x.attempt))
    case SaveFailure(error, at) =>
      var job := FailedJob(x.attempt, error, at);
      (if SaveAllowed(sh.table, job) then WithTable(sh, PutJob(sh.table, job)) else sh, Releasing(x.attempt, Doomed(x)))
  }

  /** The generation that a worker has begun to delete, or may begin to delete. */
  function Doomed(x: Worker): Option<GenerationId> {
    if x.Cleaning? || x.FailingGeneration? || x.Restoring? || x.SavingRestored? || x.SavingFailure? then
      Some(x.attempt.Generation())
    else if x.Superseding? && x.attempt.document.activeGeneration != Some(x.attempt.Generation()) then
      x.attempt.document.activeGeneration
    else if x.Releasing? || x.Ended? then x.doomed
    else None
  }

  /** The attempt of which chunk puts may still be on their way. */
  function PutsOf(x: Worker): Option<Attempt> {
    if x.Leased() then Some(x.attempt) else if x.Ended? then x.last else None
  }

  /** The finally block, cancellation, a crash, and object requests that land late: those
      that were still on their way when their batch failed, or that were reported as failed
      and carried out nevertheless.

      Cancellation reaches the finally block at once, while the call that was cancelled runs
      on in its thread.  So Cancel only gives the lease back: what the call then still does
      are further steps of the worker, and its end is a Crash.  A crashed worker's late
      requests need no step of their own, since nobody can tell when it crashed. */
  predicate CanLeave(sh: Shared, x: Worker, step: Leave) {
    match step
    case ReleaseLease => x.Releasing?
    case Cancel => x.Leased() && !x.Releasing?
    case Crash => true
    case LateChunk(_) => PutsOf(x).Some?
    case LateDelete(_, _) => Doomed(x).Some?
  }

  function LeaseGivenBack(sh: Shared, a: Attempt): Shared {
    if ReleaseAllowed(sh.table, a.document.LeaseOf(), a.command.job, a.token)
    then WithTable(sh, Release(sh.table, a.document.LeaseOf()))
    else sh
  }

  function DoLeave(sh: Shared, x: Worker, step: Leave): (r: (Shared, Worker))
    requires CanLeave(sh, x, step)
    ensures r.0.table == sh.table.(leases := r.0.table.leases) && r.0.published == sh.published
    ensures r.1 == x || r.1.Ended?
    ensures SameHistory(sh, r.0)
  {
    match step
    case ReleaseLease => (LeaseGivenBack(sh, x.attempt), Ended(Some(x.attempt), x.doomed))
    case Cancel => (LeaseGivenBack(sh, x.attempt), x)
    case Crash => (sh, Ended(PutsOf(x), Doomed(x)))
    case LateChunk(i) => (sh.(chunks := PutObjects(sh.chunks, PutsOf(x).value.Generation(), {i})), x)
    case LateDelete(chunks, vectors) => (DeleteObjects(sh, Doomed(x).value, chunks, vectors), x)
  }

  function SubmissionOwner(job: string): string {
    "submit:" + job
  }

  /** submit_ingestion: take the lease, mark the document uploaded, put the pending job. */
  predicate CanSubmit(sh: Shared, x: Worker, step: Submission) {
    match step
    case ReadForSubmission => x.Requested?
    case AcquireSubmission(now, expiresAt, _, _) =>
      x.LeasingSubmission? && now < expiresAt && AcquireAllowed(sh.table, x.document.LeaseOf(), now)
    case SaveUploaded(_, _) => x.Uploading?
    case SubmitPending(_, _, _) => x.Enrolling?
    case ReleaseSubmission => x.Enrolling? || x.Uploading? || x.ReleasingSubmission?
  }

  function MarkUploaded(sh: Shared, d: Document, job: string, token: nat, at: int, lost: bool): (r: (Shared, Worker))
    ensures r.0 == sh.(table := r.0.table) && !r.1.Leased()
  {
    if d.status != PendingUpload then (sh, Enrolling(d, job, token))
    else if SaveDocumentAllowed(sh.table, d, d.revision)
    then var d' := d.(status := Uploaded, updatedAt := at);
         (WithTable(sh, SaveDocument(sh.table, d', d.revision)),
          if lost then ReleasingSubmission(d, job, token)
          else Enrolling(d'.(revision := d.revision + 1), job, token))
    else (sh, ReleasingSubmission(d, job, token))
  }

  function DoSubmit(source: TokenSource, w: nat, sh: Shared, x: Worker, step: Submission): (r: (Shared, Worker))
    requires CanSubmit(sh, x, step)
    ensures !step.SaveUploaded? ==> r.0.table.documents == sh.table.documents
    ensures r.0.published == sh.published
    ensures !r.1.Leased()
    ensures !step.AcquireSubmission? ==> SameHistory(sh, r.0)
  {
    match step
    case ReadForSubmission =>
      var key := DocumentKey(x.tenant, x.documentId);
      if && key in sh.table.documents
         && sh.table.documents[key].status != Deleting
         && sh.table.documents[key].status != Deleted
      then (sh, LeasingSubmission(sh.table.documents[key], x.job))
      else (sh, Ended(None, None))
    case AcquireSubmission(now, expiresAt, execution, lost) =>
      var key := x.document.LeaseOf();
      var token := NextToken(source, sh, key);
      (GrantLease(sh, key, Lease(SubmissionOwner(x.job), token, execution, expiresAt)),
       if lost then Ended(None, None) else Uploading(x.document, x.job, token))
    case SaveUploaded(at, lost) =>
      MarkUploaded(sh, x.document, x.job, x.token, at, lost)
    case SubmitPending(modelAlias, pipelineVersion, at) =>
      var job := PendingJob(x.document, x.job, modelAlias, pipelineVersion, at);
      (if SubmitAllowed(sh.table, job) then WithTable(sh, Submit(sh.table, job)) else sh,
       ReleasingSubmission(x.document, x.job, x.token))
    case ReleaseSubmission =>
      (if ReleaseAllowed(sh.table, x.document.LeaseOf(), SubmissionOwner(x.job), x.token)
       then WithTable(sh, Release(sh.table, x.document.LeaseOf())) else sh,
       Ended(None, None))
  }

  predicate Enabled(sh: Shared, x: Worker, move: Move) {
    match move
    case Beginning(step) => CanBegin(sh, x, step)
    case Preparation(step) => CanPrepare(sh, x, step)
    case Construction(step) => CanBuild(sh, x, step)
    case Publication(step) => CanPublish(sh, x, step)
    case Supersession(step) => CanSupersede(sh, x, step)
    case Recovery(step) => CanRecover(sh, x, step)
    case Leaving(step) => CanLeave(sh, x, step)
    case Submitting(step) => CanSubmit(sh, x, step)
  }

  /** The moves that take a lease. */
  predicate Grants(move: Move) {
    (move.Beginning? && move.begin.Acquire?) || (move.Submitting? && move.submission.AcquireSubmission?)
  }

  /** The moves that begin an attempt: the lease is granted, and the worker is told. */
  predicate BeginsAttempt(move: Move) {
    move.Beginning? && move.begin.Acquire? && !move.begin.lost
  }

  /** The moves that may write a document. */
  predicate WritesDocument(move: Move) {
    || (move.Preparation? && move.prepare.Mark?)
    || (move.Recovery? && move.recover.SaveRestored?)
    || (move.Submitting? && move.submission.SaveUploaded?)
    || (move.Publication? && move.publish.CommitActivation?)
  }

  /** The moves of a worker that holds a lease and goes on holding it. */
  predicate InsideAttempt(move: Move) {
    !move.Beginning? && !move.Submitting? && !move.Leaving?
  }

  /** A step of worker w: the new shared state and the new worker. */
  function Act(source: TokenSource, w: nat, sh: Shared, x: Worker, move: Move): (r: (Shared, Worker))
    requires Enabled(sh, x, move)
    ensures !WritesDocument(move) ==> r.0.table.documents == sh.table.documents && r.0.published == sh.published
    ensures !Grants(move) ==> SameHistory(sh, r.0)
    ensures InsideAttempt(move) ==> x.Leased() && r.1.Leased() && r.1.attempt == x.attempt
  {
    match move
    case Beginning(step) => DoBegin(source, w, sh, x, step)
    case Preparation(step) => DoPrepare(sh, x, step)
    case Construction(step) => DoBuild(sh, x, step)
    case Publication(step) => DoPublish(sh, x, step)
    case Supersession(step) => DoSupersede(sh, x, step)
    case Recovery(step) => DoRecover(sh, x, step)
    case Leaving(step) => DoLeave(sh, x, step)
    case Submitting(step) => DoSubmit(source, w, sh, x, step)
  }

  /** What the rest of the system may do: register a document under a fresh id, renew a
      lease on a heartbeat, and record the failure of a job that was read as running. */
  datatype Outside =
    | Register(document: Document)
    | Heartbeat(key: LeaseKey, owner: string, token: nat, execution: string, now: int, expiresAt: int)
    | RecordFailure(job: Job)

  predicate OutsideEnabled(sh: Shared, o: Outside) {
    match o
    case Register(d) =>
      && d.Key() !in sh.table.documents
      && d.status == PendingUpload && d.revision == 0 && d.lastFencingToken == 0
      && d.activeGeneration.None? && d.activeFingerprint.None?
    case Heartbeat(key, owner, token, execution, now, expiresAt) =>
      now < expiresAt && RenewAllowed(sh.table, key, owner, token, execution, now)
    case RecordFailure(job) =>
      job.Fenced() && job.status == Failed && job.Key() in sh.table.jobs && SaveAllowed(sh.table, job)
  }

  function ActOutside(sh: Shared, o: Outside): Shared
    requires OutsideEnabled(sh, o)
  {
    match o
    case Register(d) => WithTable(sh, sh.table.(documents := sh.table.documents[d.Key() := d]))
    case Heartbeat(key, _, _, _, _, expiresAt) => WithTable(sh, Renew(sh.table, key, expiresAt))
    case RecordFailure(job) => WithTable(sh, PutJob(sh.table, job))
  }

  datatype State = State(shared: Shared, workers: map<nat, Worker>)

  datatype Event =
    | StartIngestion(w: nat, command: Command)
    | StartSubmission(w: nat, tenant: string, documentId: string, job: string)
    | WorkerMoves(w: nat, move: Move)
    | OutsideActs(outside: Outside)

  const INITIAL_STATE := State(Shared(EMPTY_TABLE, map[], map[], {}, map[], map[], {}), map[])

  predicate EventEnabled(s: State, e: Event) {
    match e
    case StartIngestion(w, _) => w !in s.workers
    case StartSubmission(w, _, _, _) => w !in s.workers
    case WorkerMoves(w, move) => w in s.workers && Enabled(s.shared, s.workers[w], move)
    case OutsideActs(o) => OutsideEnabled(s.shared, o)
  }

  function Next(source: TokenSource, s: State, e: Event): State
    requires EventEnabled(s, e)
  {
    match e
    case StartIngestion(w, command) => s.(workers := s.workers[w := Starting(command)])
    case StartSubmission(w, tenant, documentId, job) =>
        s.(workers := s.workers[w := Requested(tenant, documentId, job)])
    case WorkerMoves(w, move) =>
      var r := Act(source, w, s.shared, s.workers[w], move);
      State(r.0, s.workers[w := r.1])
    case OutsideActs(o) => s.(shared := ActOutside(s.shared, o))
  }

  /** The hypothesis that no two attempts build one generation, for one event: job, document
      version and pipeline are the same again, and so is the token.  Whether an owner that
      builds nothing is granted a token twice does not matter. */
  predicate NonRepeating(source: TokenSource, s: State, e: Event)
    requires EventEnabled(s, e)
  {
    e.WorkerMoves? && BeginsAttempt(e.move) ==>
      NextAttempt(source, s.shared, s.workers[e.w], e.move.begin.now).Generation() !in s.shared.attempts
  }
}
