/** What DocumentIngestionService.ingest can leave behind when nobody else is at work
    (ingestion.py): everything that the in-memory repositories hold, and the worlds in which a
    run ends or is cut short. */
module SequentialWorlds {
  import opened Chunking
  import opened Embedding
  import opened Entities
  import opened InMemoryStores
  import opened Windows
  import Leases = InMemoryLeases
  import Protocol

  datatype IngestDocumentCommand = IngestDocumentCommand(
    ids: Protocol.Command, batchSize: nat, leaseTtlSeconds: nat)
  {
    predicate Valid() { 1 <= batchSize <= 256 && 30 <= leaseTtlSeconds <= 3600 }
  }

  datatype Failure = InvalidExtraction | InvalidEmbeddingResponse | ActivationConflict | RepositoryConflict | Unexpected

  function FailureCode(f: Failure): string {
    match f
    case InvalidExtraction => "INVALID_EXTRACTION"
    case InvalidEmbeddingResponse => "INVALID_EMBEDDING_RESPONSE"
    case ActivationConflict => "INDEX_ACTIVATION_CONFLICT"
    case RepositoryConflict => "REPOSITORY_CONFLICT"
    case Unexpected => "INGESTION_FAILED"
  }

  /** What the extractor does: it may raise anything. */
  datatype Extraction = Extracted(document: ExtractedDocument) | ExtractionRaises(failure: Failure)

  /** Which of the calls after a failure or after the activation raise: deleting chunks,
      deleting vectors, saving the generation, the document, the failed job.  All but the last
      are best-effort calls whose errors are suppressed. */
  datatype Trouble = Trouble(chunks: bool, vectors: bool, generation: bool, document: bool, job: bool)

  const NO_TROUBLE := Trouble(false, false, false, false, false)
  const ALL_TROUBLE := Trouble(true, true, true, true, true)

  /** Which of the calls that ingest does not guard raises, if any: a read before the lease,
      acquiring it, claiming the job, saving the generation, marking the document, or giving
      the lease back. */
  datatype Outage = NoOutage | AtLookUp | AtAcquire | AtClaim | AtRecord | AtMark | AtRelease

  /** How ingest ends. */
  datatype Ending =
    | NotFound
    | NotReady
    | InProgress
    | Conflict                            // the claim was rejected
    | AlreadyDone(job: Job)               // the fingerprint has succeeded before
    | Failed(attempt: Protocol.Attempt, failure: Failure)
    | Unrecorded(attempt: Protocol.Attempt)   // it failed, and the failed job could not be saved
    | Succeeded(attempt: Protocol.Attempt, job: Job)
    | Escaped                             // a call outside the guarded part raised
    | Cancelled

  /** Nothing was built and nothing was recorded. */
  predicate Early(e: Ending) {
    e == Conflict || e == InProgress || (e.AlreadyDone? && e.job.status == JobStatus.Succeeded)
  }

  /** The job that is handed out is one of the stored jobs of the tenant. */
  predicate HandedOut(jobs: map<JobKey, Job>, tenant: string, job: Job) {
    exists k :: k in jobs && k.tenant == tenant && jobs[k] == job
  }

  /** Everything the service can change. */
  datatype World = World(
    documents: map<DocumentKey, Document>,
    jobs: map<JobKey, Job>,
    fingerprints: map<MarkerKey, string>,
    generations: map<GenerationKey, Generation>,
    leases: Leases.Store,
    chunks: map<RecordKey, DocumentChunk>,
    vectors: map<RecordKey, VectorRecord>)

  function Counter(leases: Leases.Store, key: LeaseKey): nat {
    if key in leases.tokens then leases.tokens[key] else 0
  }

  /** What the stores hold belongs to the generation of its key, and that generation's token
      was granted before. */
  ghost predicate ChunkKnown(w: World, k: RecordKey) {
    k in w.chunks ==>
      && ChunkKey(w.chunks[k]) == k
      && w.chunks[k].document == k.generation.fingerprint.document
      && k.tenant == k.generation.fingerprint.tenant
      && k.generation.token <= Counter(w.leases, Protocol.LeaseKeyOf(k.generation))
  }

  ghost predicate VectorKnown(w: World, k: RecordKey) {
    k in w.vectors ==>
      && VectorKey(w.vectors[k]) == k
      && w.vectors[k].document == k.generation.fingerprint.document
      && k.tenant == k.generation.fingerprint.tenant
      && k.generation.token <= Counter(w.leases, Protocol.LeaseKeyOf(k.generation))
  }

  /** A document is filed under its key and points to a generation of its own, if any, whose
      token was granted before. */
  predicate DocumentKnown(w: World, k: DocumentKey) {
    k in w.documents ==>
      && w.documents[k].Key() == k
      && (w.documents[k].activeGeneration.Some? ==>
            var g := w.documents[k].activeGeneration.value;
            Protocol.DocumentKeyOf(g) == k && g.token <= Counter(w.leases, Protocol.LeaseKeyOf(g)))
  }

  ghost predicate Known(w: World) {
    && (forall k :: DocumentKnown(w, k))
    && (forall k :: ChunkKnown(w, k))
    && (forall k :: VectorKnown(w, k))
  }

  /** The readings of the clock, in the order in which a run may take them. */
  datatype Clock = Clock(startedAt: int, readyAt: int, completedAt: int, failedAt: int, restoredAt: int)

  // ---------------------------------------------------------------- the worlds

  /** The counter keeps the token that was granted; the lease itself is gone. */
  function LeaseReturned(leases: Leases.Store, key: LeaseKey, token: nat): Leases.Store {
    Leases.Store(leases.leases - {key}, leases.tokens[key := token], leases.executions - {key})
  }

  /** The document while the attempt works on it. */
  function Working(a: Protocol.Attempt): Document {
    if a.document.activeGeneration.None?
    then a.document.(status := Processing, updatedAt := a.startedAt, revision := a.document.revision + 1)
    else a.document
  }

  function CandidateKey(a: Protocol.Attempt): GenerationKey {
    Protocol.BuildingGeneration(a).Key()
  }

  /** Lease held, job claimed. */
  function Claimed(w: World, a: Protocol.Attempt, leases: Leases.Store): World {
    var job := Protocol.RunningJob(a);
    w.(leases := leases,
       jobs := w.jobs[job.Key() := job],
       fingerprints := w.fingerprints[job.MarkerOf() := job.id])
  }

  /** ... generation recorded. */
  function Recorded(w: World, a: Protocol.Attempt, leases: Leases.Store): World {
    Claimed(w, a, leases).(generations := w.generations[CandidateKey(a) := Protocol.BuildingGeneration(a)])
  }

  /** ... document marked. */
  function Prepared(w: World, a: Protocol.Attempt, leases: Leases.Store): World {
    Recorded(w, a, leases).(
      documents := if a.document.activeGeneration.None?
                   then w.documents[a.document.Key() := Working(a)] else w.documents)
  }

  /** The document after the clean-up: marked failed if it was marked for this attempt. */
  function RestoredDocuments(w: World, a: Protocol.Attempt, clock: Clock): map<DocumentKey, Document> {
    if a.document.activeGeneration.None?
    then w.documents[a.document.Key() := Working(a).(status := DocumentFailed, updatedAt := clock.restoredAt,
                                                       revision := a.document.revision + 2)]
    else w.documents
  }

  /** Failure is atomic: both stores are as they were, the document points to what it pointed
      to, the job is stored as failed with its code, and the lease is gone. */
  function RolledBack(w: World, a: Protocol.Attempt, f: Failure, clock: Clock): World {
    var job := Protocol.FailedJob(a, FailureCode(f), clock.failedAt);
    w.(leases := LeaseReturned(w.leases, a.document.LeaseOf(), a.token),
       jobs := w.jobs[job.Key() := job],
       fingerprints := w.fingerprints[job.MarkerOf() := job.id],
       generations := w.generations[CandidateKey(a) := Protocol.BuildingGeneration(a).(status := GenerationFailed)],
       documents := RestoredDocuments(w, a, clock))
  }

  /** The same with some of the calls not carried out: then their part is as the attempt left
      it, which had stored the given chunks and records and the given generation record. */
  function Undone(w: World, a: Protocol.Attempt, f: Failure, clock: Clock, trouble: Trouble,
                  chunks: seq<DocumentChunk>, records: seq<VectorRecord>, record: Generation): World {
    var prepared := Prepared(w, a, w.leases);
    var rolledBack := RolledBack(w, a, f, clock);
    World(if trouble.document then prepared.documents else rolledBack.documents,
          if trouble.job then prepared.jobs else rolledBack.jobs,
          rolledBack.fingerprints,
          if trouble.generation then w.generations[CandidateKey(a) := record] else rolledBack.generations,
          rolledBack.leases,
          if trouble.chunks then PutChunks(w.chunks, chunks) else w.chunks,
          if trouble.vectors then PutVectors(w.vectors, records) else w.vectors)
  }

  predicate ReplacesAnother(a: Protocol.Attempt) {
    a.document.activeGeneration.Some? && a.document.activeGeneration.value != a.Generation()
  }

  function PreviousKey(a: Protocol.Attempt): GenerationKey
    requires ReplacesAnother(a)
  {
    GenerationKey(a.document.tenant, a.document.id, a.document.activeGeneration.value)
  }

  function PreviousSuperseded(generations: map<GenerationKey, Generation>, a: Protocol.Attempt)
    : map<GenerationKey, Generation>
  {
    if ReplacesAnother(a) && PreviousKey(a) in generations
    then generations[PreviousKey(a) := generations[PreviousKey(a)].(status := GenerationStatus.Superseded)]
    else generations
  }

  function WithoutPreviousChunks(m: map<RecordKey, DocumentChunk>, a: Protocol.Attempt): map<RecordKey, DocumentChunk> {
    if ReplacesAnother(a) then WithoutChunks(m, a.document.tenant, a.document.id, a.document.activeGeneration.value)
    else m
  }

  function WithoutPreviousVectors(m: map<RecordKey, VectorRecord>, a: Protocol.Attempt): map<RecordKey, VectorRecord> {
    if ReplacesAnother(a) then WithoutVectors(m, a.document.tenant, a.document.id, a.document.activeGeneration.value)
    else m
  }

  function ActivatedDocument(a: Protocol.Attempt, candidate: Generation, clock: Clock): Document {
    PointingTo(Working(a), candidate, clock.completedAt).(revision := Working(a).revision + 1)
  }

  /** Success: the document points to the candidate, the stores hold the candidate's chunks
      and records and, as far as nothing went wrong with the supersession, no longer those of
      the previous generation, the job is stored as succeeded, and the lease is gone. */
  function Published(w: World, a: Protocol.Attempt, clock: Clock, trouble: Trouble,
                     chunks: seq<DocumentChunk>, records: seq<VectorRecord>): World {
    var job := Protocol.SucceededJob(a, |chunks|, clock.completedAt);
    var candidate := Protocol.ActiveGeneration(a, |chunks|, clock.readyAt, clock.completedAt);
    var generations := w.generations[CandidateKey(a) := candidate];
    World(w.documents[a.document.Key() := ActivatedDocument(a, candidate, clock)],
          w.jobs[job.Key() := job],
          w.fingerprints[job.MarkerOf() := job.id],
          if trouble.generation then generations else PreviousSuperseded(generations, a),
          LeaseReturned(w.leases, a.document.LeaseOf(), a.token),
          if trouble.chunks then PutChunks(w.chunks, chunks) else WithoutPreviousChunks(PutChunks(w.chunks, chunks), a),
          if trouble.vectors then PutVectors(w.vectors, records)
          else WithoutPreviousVectors(PutVectors(w.vectors, records), a))
  }

  /** What was stored: one chunk for each window of the extraction, and one record for each
      chunk with the vector that was answered for its text. */
  ghost predicate Stored(a: Protocol.Attempt, extracted: ExtractedDocument, s: Settings,
                         chunks: seq<DocumentChunk>, answers: seq<(string, seq<Float>)>, records: seq<VectorRecord>)
    requires s.chunking.Valid()
  {
    && chunks != []
    && Numbered(a.document, s.version, a.Generation(), a.startedAt, AllPieces(s.chunking, extracted.sections), chunks)
    && Embedded(chunks, s.profile, a.command.pipelineVersion, answers, records)
  }

  datatype Settings = Settings(chunking: ChunkingConfig, version: string, profile: EmbeddingProfile)

  // ---------------------------------------------------------------- how an attempt ends

  predicate OfCandidate(a: Protocol.Attempt, chunks: seq<DocumentChunk>, records: seq<VectorRecord>) {
    && (forall i :: 0 <= i < |chunks| ==>
          && chunks[i].generation == a.Generation()
          && chunks[i].tenant == a.document.tenant
          && chunks[i].document == a.document.id)
    && (forall i :: 0 <= i < |records| ==>
          && records[i].generation == a.Generation()
          && records[i].tenant == a.document.tenant
          && records[i].document == a.document.id)
  }

  /** The attempt was undone as far as the trouble allowed. */
  ghost predicate UndoneFrom(w: World, now: World, leases: Leases.Store, a: Protocol.Attempt, f: Failure, clock: Clock,
                             trouble: Trouble) {
    exists chunks, records, record :: OfCandidate(a, chunks, records)
      && now == Undone(w, a, f, clock, trouble, chunks, records, record).(leases := leases)
  }

  /** The attempt was published, and the previous generation removed as far as the trouble
      allowed. */
  ghost predicate PublishedAs(w: World, now: World, leases: Leases.Store, a: Protocol.Attempt,
                              clock: Clock, s: Settings, extraction: Extraction,
                              trouble: Trouble, batch: seq<DocumentChunk>,
                              answers: seq<(string, seq<Float>)>, records: seq<VectorRecord>)
    requires s.chunking.Valid()
  {
    && extraction.Extracted?
    && Stored(a, extraction.document, s, batch, answers, records)
    && now == Published(w, a, clock, trouble, batch, records).(leases := leases)
  }

  /** The attempt was cancelled before everything was prepared. */
  predicate PartlyPrepared(w: World, now: World, leases: Leases.Store, a: Protocol.Attempt) {
    || now == w.(leases := leases)
    || now == Claimed(w, a, leases)
    || now == Recorded(w, a, leases)
  }

  /** The attempt ended by an error of its preparation: the job, once claimed, is still
      running, and what was to come next has not been done. */
  predicate EscapedAt(w: World, now: World, leases: Leases.Store, a: Protocol.Attempt, outage: Outage) {
    match outage
    case AtClaim => now == w.(leases := leases)
    case AtRecord => now == Claimed(w, a, leases)
    case AtMark => a.document.activeGeneration.None? && now == Recorded(w, a, leases)
    case _ => false
  }

  /** Wherever a cancellation finds the attempt: in its preparation, while it builds or undoes
      its candidate, or after its activation.  What had not been done yet is not done. */
  ghost predicate CutShort(w: World, now: World, leases: Leases.Store, a: Protocol.Attempt, clock: Clock, s: Settings,
                           extraction: Extraction, batch: seq<DocumentChunk>,
                           answers: seq<(string, seq<Float>)>, records: seq<VectorRecord>)
    requires s.chunking.Valid()
  {
    || PartlyPrepared(w, now, leases, a)
    || (exists f, trouble :: UndoneFrom(w, now, leases, a, f, clock, trouble))
    || (exists trouble :: PublishedAs(w, now, leases, a, clock, s, extraction, trouble, batch, answers, records))
  }

  /** How an attempt that got its lease ends, the lease dictionaries being as given. */
  ghost predicate Ended(w: World, now: World, leases: Leases.Store, a: Protocol.Attempt, clock: Clock, s: Settings,
                        extraction: Extraction, trouble: Trouble, ending: Ending, batch: seq<DocumentChunk>,
                        answers: seq<(string, seq<Float>)>, records: seq<VectorRecord>)
    requires s.chunking.Valid()
  {
    match ending
    case Failed(attempt, failure) =>
      attempt == a && !trouble.job && UndoneFrom(w, now, leases, a, failure, clock, trouble)
    case Unrecorded(attempt) =>
      attempt == a && trouble.job && exists f :: UndoneFrom(w, now, leases, a, f, clock, trouble)
    case Succeeded(attempt, job) =>
      && attempt == a && job == Protocol.SucceededJob(a, |batch|, clock.completedAt)
      && PublishedAs(w, now, leases, a, clock, s, extraction, trouble, batch, answers, records)
    case Cancelled => CutShort(w, now, leases, a, clock, s, extraction, batch, answers, records)
    case Escaped => PartlyPrepared(w, now, leases, a)
    case _ => Early(ending) && now == w.(leases := leases)
  }

  /** Without trouble a failure is atomic. */
  lemma FailureIsAtomic(w: World, now: World, leases: Leases.Store, a: Protocol.Attempt, clock: Clock, s: Settings,
                        extraction: Extraction, ending: Ending, batch: seq<DocumentChunk>,
                        answers: seq<(string, seq<Float>)>, records: seq<VectorRecord>)
    requires s.chunking.Valid() && ending.Failed?
    requires Ended(w, now, leases, a, clock, s, extraction, NO_TROUBLE, ending, batch, answers, records)
    ensures now == RolledBack(w, a, ending.failure, clock).(leases := leases)
    ensures now.chunks == w.chunks && now.vectors == w.vectors
    ensures a.document.Key() in w.documents && w.documents[a.document.Key()] == a.document ==>
              now.documents[a.document.Key()].activeGeneration == a.document.activeGeneration
  {
  }

  // ---------------------------------------------------------------- attempts

  /** The attempt may start: the document is the stored one, and the stores know nothing of
      the candidate. */
  ghost predicate CanAttempt(w: World, a: Protocol.Attempt) {
    && Known(w)
    && a.document.Key() in w.documents && w.documents[a.document.Key()] == a.document
    && (forall k :: k in w.chunks ==> k.generation != a.Generation())
    && (forall k :: k in w.vectors ==> k.generation != a.Generation())
  }

  /** The attempt that a command makes: on the stored document, with the next token. */
  predicate IsAttempt(w: World, command: IngestDocumentCommand, clock: Clock, a: Protocol.Attempt) {
    && a.command == command.ids
    && a.startedAt == clock.startedAt
    && a.document.Key() == DocumentKey(command.ids.tenant, command.ids.document)
    && a.document.Key() in w.documents && w.documents[a.document.Key()] == a.document
    && a.token == Counter(w.leases, a.document.LeaseOf()) + 1
  }

  /** A token that was never granted makes a generation that was never stored. */
  lemma FreshCandidate(w: World, a: Protocol.Attempt)
    requires Known(w) && a.token > Counter(w.leases, a.document.LeaseOf())
    requires a.document.Key() in w.documents && w.documents[a.document.Key()] == a.document
    ensures CanAttempt(w, a)
  {
    assert Protocol.LeaseKeyOf(a.Generation()) == a.document.LeaseOf();
    forall k | k in w.chunks ensures k.generation != a.Generation() {
      assert ChunkKnown(w, k);
    }
    forall k | k in w.vectors ensures k.generation != a.Generation() {
      assert VectorKnown(w, k);
    }
  }

  lemma MaterialIsOfCandidate(a: Protocol.Attempt, extracted: ExtractedDocument, s: Settings,
                              chunks: seq<DocumentChunk>, answers: seq<(string, seq<Float>)>,
                              records: seq<VectorRecord>)
    requires s.chunking.Valid() && Stored(a, extracted, s, chunks, answers, records)
    ensures OfCandidate(a, chunks, records) && |records| == |chunks|
  {
  }

  // ---------------------------------------------------------------- candidates come and go

  lemma {:induction false} PutChunksTouchesOnly(m: map<RecordKey, DocumentChunk>, chunks: seq<DocumentChunk>,
                                                g: GenerationId)
    requires forall i :: 0 <= i < |chunks| ==> chunks[i].generation == g
    ensures forall k :: k in m ==> k in PutChunks(m, chunks)
    ensures forall k :: k in PutChunks(m, chunks) && k.generation != g ==> k in m && PutChunks(m, chunks)[k] == m[k]
    ensures forall k :: k in PutChunks(m, chunks) && k.generation == g ==>
              || (k in m && PutChunks(m, chunks)[k] == m[k])
              || (PutChunks(m, chunks)[k] in chunks && ChunkKey(PutChunks(m, chunks)[k]) == k)
  {
    if chunks != [] {
      var n := |chunks| - 1;
      PutChunksTouchesOnly(m, chunks[..n], g);
      assert forall i :: 0 <= i < n ==> chunks[..n][i] == chunks[i];
    }
  }

  lemma {:induction false} PutVectorsTouchesOnly(m: map<RecordKey, VectorRecord>, records: seq<VectorRecord>,
                                                 g: GenerationId)
    requires forall i :: 0 <= i < |records| ==> records[i].generation == g
    ensures forall k :: k in m ==> k in PutVectors(m, records)
    ensures forall k :: k in PutVectors(m, records) && k.generation != g ==> k in m && PutVectors(m, records)[k] == m[k]
    ensures forall k :: k in PutVectors(m, records) && k.generation == g ==>
              || (k in m && PutVectors(m, records)[k] == m[k])
              || (PutVectors(m, records)[k] in records && VectorKey(PutVectors(m, records)[k]) == k)
  {
    if records != [] {
      var n := |records| - 1;
      PutVectorsTouchesOnly(m, records[..n], g);
      assert forall i :: 0 <= i < n ==> records[..n][i] == records[i];
    }
  }

  /** Chunks of a new generation, stored in part and then deleted, leave no trace. */
  lemma {:induction false} ChunksLeaveNoTrace(m: map<RecordKey, DocumentChunk>, chunks: seq<DocumentChunk>,
                                              tenant: string, document: string, g: GenerationId)
    requires forall k :: k in m ==> k.generation != g && ChunkKey(m[k]) == k
    requires forall i :: 0 <= i < |chunks| ==>
               chunks[i].generation == g && chunks[i].tenant == tenant && chunks[i].document == document
    ensures WithoutChunks(PutChunks(m, chunks), tenant, document, g) == m
  {
    PutChunksTouchesOnly(m, chunks, g);
  }

  lemma {:induction false} VectorsLeaveNoTrace(m: map<RecordKey, VectorRecord>, records: seq<VectorRecord>,
                                               tenant: string, document: string, g: GenerationId)
    requires forall k :: k in m ==> k.generation != g && VectorKey(m[k]) == k
    requires forall i :: 0 <= i < |records| ==>
               records[i].generation == g && records[i].tenant == tenant && records[i].document == document
    ensures WithoutVectors(PutVectors(m, records), tenant, document, g) == m
  {
    PutVectorsTouchesOnly(m, records, g);
  }

  /** Is m what becomes of the chunks before when some of the attempt's are put, and those of
      the generation it replaces perhaps deleted? */
  ghost predicate ChunksFrom(before: map<RecordKey, DocumentChunk>, m: map<RecordKey, DocumentChunk>,
                             a: Protocol.Attempt) {
    exists chunks :: OfCandidate(a, chunks, [])
      && (m == PutChunks(before, chunks) || m == WithoutPreviousChunks(PutChunks(before, chunks), a))
  }

  ghost predicate VectorsFrom(before: map<RecordKey, VectorRecord>, m: map<RecordKey, VectorRecord>,
                              a: Protocol.Attempt) {
    exists records :: OfCandidate(a, [], records)
      && (m == PutVectors(before, records) || m == WithoutPreviousVectors(PutVectors(before, records), a))
  }

  // ---------------------------------------------------------------- what every run keeps

  /** The counter keeps the token that was granted, and grants no other key anything. */
  predicate TokenSpent(w: World, a: Protocol.Attempt, leases: Leases.Store) {
    leases.tokens == w.leases.tokens[a.document.LeaseOf() := a.token]
  }

  lemma CounterCovers(w: World, a: Protocol.Attempt, leases: Leases.Store, key: LeaseKey)
    requires TokenSpent(w, a, leases) && a.token == Counter(w.leases, a.document.LeaseOf()) + 1
    ensures Counter(w.leases, key) <= Counter(leases, key)
    ensures Counter(leases, a.document.LeaseOf()) == a.token
  {
  }

  lemma ChunksAreKnown(w: World, now: World, a: Protocol.Attempt, k: RecordKey)
    requires ChunkKnown(w, k) && TokenSpent(w, a, now.leases) && a.token == Counter(w.leases, a.document.LeaseOf()) + 1
    requires ChunksFrom(w.chunks, now.chunks, a)
    ensures ChunkKnown(now, k)
  {
    var chunks :| OfCandidate(a, chunks, [])
                  && (now.chunks == PutChunks(w.chunks, chunks)
                      || now.chunks == WithoutPreviousChunks(PutChunks(w.chunks, chunks), a));
    PutChunksTouchesOnly(w.chunks, chunks, a.Generation());
    CounterCovers(w, a, now.leases, Protocol.LeaseKeyOf(k.generation));
    assert Protocol.LeaseKeyOf(a.Generation()) == a.document.LeaseOf();
  }

  lemma VectorsAreKnown(w: World, now: World, a: Protocol.Attempt, k: RecordKey)
    requires VectorKnown(w, k) && TokenSpent(w, a, now.leases) && a.token == Counter(w.leases, a.document.LeaseOf()) + 1
    requires VectorsFrom(w.vectors, now.vectors, a)
    ensures VectorKnown(now, k)
  {
    var records :| OfCandidate(a, [], records)
                   && (now.vectors == PutVectors(w.vectors, records)
                       || now.vectors == WithoutPreviousVectors(PutVectors(w.vectors, records), a));
    PutVectorsTouchesOnly(w.vectors, records, a.Generation());
    CounterCovers(w, a, now.leases, Protocol.LeaseKeyOf(k.generation));
    assert Protocol.LeaseKeyOf(a.Generation()) == a.document.LeaseOf();
  }

  /** The document of the attempt is its own version of it, or points to the candidate. */
  predicate DocumentsFrom(w: World, documents: map<DocumentKey, Document>, a: Protocol.Attempt) {
    && documents.Keys == w.documents.Keys
    && (forall k :: k in documents && k != a.document.Key() ==> documents[k] == w.documents[k])
    && a.document.Key() in documents && documents[a.document.Key()].Key() == a.document.Key()
    && (|| documents[a.document.Key()].activeGeneration == a.document.activeGeneration
        || documents[a.document.Key()].activeGeneration == Some(a.Generation()))
  }

  /** Where an attempt can be found, in part: jobs and generations aside. */
  ghost predicate Within(w: World, now: World, a: Protocol.Attempt) {
    && TokenSpent(w, a, now.leases)
    && DocumentsFrom(w, now.documents, a)
    && ChunksFrom(w.chunks, now.chunks, a)
    && VectorsFrom(w.vectors, now.vectors, a)
  }

  lemma DocumentsAreKnown(w: World, now: World, a: Protocol.Attempt, k: DocumentKey)
    requires DocumentKnown(w, k) && TokenSpent(w, a, now.leases) && DocumentsFrom(w, now.documents, a)
    requires a.token == Counter(w.leases, a.document.LeaseOf()) + 1
    requires a.document.Key() in w.documents && w.documents[a.document.Key()] == a.document
    ensures DocumentKnown(now, k)
  {
    if k in now.documents && now.documents[k].activeGeneration.Some? {
      CounterCovers(w, a, now.leases, Protocol.LeaseKeyOf(now.documents[k].activeGeneration.value));
      assert Protocol.LeaseKeyOf(a.Generation()) == a.document.LeaseOf();
    }
  }

  lemma WithinIsKnown(w: World, now: World, a: Protocol.Attempt)
    requires CanAttempt(w, a) && a.token == Counter(w.leases, a.document.LeaseOf()) + 1 && Within(w, now, a)
    ensures Known(now)
  {
    forall k ensures DocumentKnown(now, k) {
      assert DocumentKnown(w, k);
      DocumentsAreKnown(w, now, a, k);
    }
    forall k ensures ChunkKnown(now, k) {
      assert ChunkKnown(w, k);
      ChunksAreKnown(w, now, a, k);
    }
    forall k ensures VectorKnown(now, k) {
      assert VectorKnown(w, k);
      VectorsAreKnown(w, now, a, k);
    }
  }

  lemma StoresUntouched(w: World, a: Protocol.Attempt)
    ensures ChunksFrom(w.chunks, w.chunks, a) && VectorsFrom(w.vectors, w.vectors, a)
  {
    assert OfCandidate(a, [], []);
    assert PutChunks(w.chunks, []) == w.chunks && PutVectors(w.vectors, []) == w.vectors;
  }

  lemma PreparedIsWithin(w: World, now: World, leases: Leases.Store, a: Protocol.Attempt)
    requires CanAttempt(w, a) && TokenSpent(w, a, leases) && PartlyPrepared(w, now, leases, a)
    ensures Within(w, now, a)
  {
    StoresUntouched(w, a);
  }

  lemma UndoneIsWithin(w: World, now: World, leases: Leases.Store, a: Protocol.Attempt, f: Failure, clock: Clock,
                       trouble: Trouble)
    requires CanAttempt(w, a) && TokenSpent(w, a, leases) && UndoneFrom(w, now, leases, a, f, clock, trouble)
    ensures Within(w, now, a)
  {
    StoresUntouched(w, a);
    var chunks, records, record :| OfCandidate(a, chunks, records)
      && now == Undone(w, a, f, clock, trouble, chunks, records, record).(leases := leases);
    assert OfCandidate(a, chunks, []) && OfCandidate(a, [], records);
  }

  lemma PublishedIsWithin(w: World, now: World, leases: Leases.Store, a: Protocol.Attempt, clock: Clock, s: Settings,
                          extraction: Extraction, trouble: Trouble, batch: seq<DocumentChunk>,
                          answers: seq<(string, seq<Float>)>, records: seq<VectorRecord>)
    requires CanAttempt(w, a) && TokenSpent(w, a, leases) && s.chunking.Valid()
    requires PublishedAs(w, now, leases, a, clock, s, extraction, trouble, batch, answers, records)
    ensures Within(w, now, a)
  {
    MaterialIsOfCandidate(a, extraction.document, s, batch, answers, records);
    assert OfCandidate(a, batch, []) && OfCandidate(a, [], records);
  }

  lemma CutShortIsWithin(w: World, now: World, leases: Leases.Store, a: Protocol.Attempt, clock: Clock, s: Settings,
                         extraction: Extraction, batch: seq<DocumentChunk>,
                         answers: seq<(string, seq<Float>)>, records: seq<VectorRecord>)
    requires CanAttempt(w, a) && TokenSpent(w, a, leases) && s.chunking.Valid()
    requires CutShort(w, now, leases, a, clock, s, extraction, batch, answers, records)
    ensures Within(w, now, a)
  {
    if PartlyPrepared(w, now, leases, a) {
      PreparedIsWithin(w, now, leases, a);
    } else if exists f, trouble :: UndoneFrom(w, now, leases, a, f, clock, trouble) {
      var f, trouble :| UndoneFrom(w, now, leases, a, f, clock, trouble);
      UndoneIsWithin(w, now, leases, a, f, clock, trouble);
    } else {
      var trouble :| PublishedAs(w, now, leases, a, clock, s, extraction, trouble, batch, answers, records);
      PublishedIsWithin(w, now, leases, a, clock, s, extraction, trouble, batch, answers, records);
    }
  }

  /** However an attempt ends, the world it leaves is known. */
  lemma EndedIsKnown(w: World, now: World, leases: Leases.Store, a: Protocol.Attempt, clock: Clock, s: Settings,
                     extraction: Extraction, trouble: Trouble, ending: Ending, batch: seq<DocumentChunk>,
                     answers: seq<(string, seq<Float>)>, records: seq<VectorRecord>)
    requires CanAttempt(w, a) && a.token == Counter(w.leases, a.document.LeaseOf()) + 1 && TokenSpent(w, a, leases)
    requires s.chunking.Valid()
    requires Ended(w, now, leases, a, clock, s, extraction, trouble, ending, batch, answers, records)
    ensures Within(w, now, a) && Known(now)
  {
    match ending {
      case Failed(_, failure) => UndoneIsWithin(w, now, leases, a, failure, clock, trouble);
      case Unrecorded(_) =>
        var f :| UndoneFrom(w, now, leases, a, f, clock, trouble);
        UndoneIsWithin(w, now, leases, a, f, clock, trouble);
      case Succeeded(_, _) =>
        PublishedIsWithin(w, now, leases, a, clock, s, extraction, trouble, batch, answers, records);
      case Cancelled => CutShortIsWithin(w, now, leases, a, clock, s, extraction, batch, answers, records);
      case _ => PreparedIsWithin(w, now, leases, a);
    }
    WithinIsKnown(w, now, a);
  }

  /** Every ending could also be a cancellation that came too late. */
  lemma EndedIsCutShort(w: World, now: World, leases: Leases.Store, a: Protocol.Attempt, clock: Clock, s: Settings,
                        extraction: Extraction, trouble: Trouble, ending: Ending, batch: seq<DocumentChunk>,
                        answers: seq<(string, seq<Float>)>, records: seq<VectorRecord>)
    requires s.chunking.Valid()
    requires Ended(w, now, leases, a, clock, s, extraction, trouble, ending, batch, answers, records)
    ensures CutShort(w, now, leases, a, clock, s, extraction, batch, answers, records)
  {
    if ending.Failed? {
      assert UndoneFrom(w, now, leases, a, ending.failure, clock, trouble);
    }
  }

  /** The lease dictionaries may be replaced in any ending. */
  lemma EndedWithOtherLeases(w: World, now: World, leases: Leases.Store, leases': Leases.Store, a: Protocol.Attempt,
                             clock: Clock, s: Settings, extraction: Extraction, trouble: Trouble, ending: Ending,
                             batch: seq<DocumentChunk>, answers: seq<(string, seq<Float>)>, records: seq<VectorRecord>)
    requires s.chunking.Valid()
    requires Ended(w, now, leases, a, clock, s, extraction, trouble, ending, batch, answers, records)
    ensures Ended(w, now.(leases := leases'), leases', a, clock, s, extraction, trouble, ending, batch,
                  answers, records)
  {
    if ending.Failed? {
      UndoneWithOtherLeases(w, now, leases, leases', a, ending.failure, clock, trouble);
    } else if ending.Unrecorded? {
      var f :| UndoneFrom(w, now, leases, a, f, clock, trouble);
      UndoneWithOtherLeases(w, now, leases, leases', a, f, clock, trouble);
    } else if ending.Cancelled? {
      CutShortWithOtherLeases(w, now, leases, leases', a, clock, s, extraction, batch, answers, records);
    } else if ending.Escaped? {
      PreparedWithOtherLeases(w, now, leases, leases', a);
    }
  }

  lemma UndoneWithOtherLeases(w: World, now: World, leases: Leases.Store, leases': Leases.Store, a: Protocol.Attempt,
                              f: Failure, clock: Clock, trouble: Trouble)
    requires UndoneFrom(w, now, leases, a, f, clock, trouble)
    ensures UndoneFrom(w, now.(leases := leases'), leases', a, f, clock, trouble)
  {
    var chunks, records, record :| OfCandidate(a, chunks, records)
      && now == Undone(w, a, f, clock, trouble, chunks, records, record).(leases := leases);
    assert now.(leases := leases') == Undone(w, a, f, clock, trouble, chunks, records, record).(leases := leases');
  }

  lemma PreparedWithOtherLeases(w: World, now: World, leases: Leases.Store, leases': Leases.Store, a: Protocol.Attempt)
    requires PartlyPrepared(w, now, leases, a)
    ensures PartlyPrepared(w, now.(leases := leases'), leases', a)
  {
  }

  lemma CutShortWithOtherLeases(w: World, now: World, leases: Leases.Store, leases': Leases.Store, a: Protocol.Attempt,
                                clock: Clock, s: Settings, extraction: Extraction, batch: seq<DocumentChunk>,
                                answers: seq<(string, seq<Float>)>, records: seq<VectorRecord>)
    requires s.chunking.Valid()
    requires CutShort(w, now, leases, a, clock, s, extraction, batch, answers, records)
    ensures CutShort(w, now.(leases := leases'), leases', a, clock, s, extraction, batch, answers, records)
  {
    var now' := now.(leases := leases');
    if PartlyPrepared(w, now, leases, a) {
      PreparedWithOtherLeases(w, now, leases, leases', a);
    } else if exists f, trouble :: UndoneFrom(w, now, leases, a, f, clock, trouble) {
      var f, trouble :| UndoneFrom(w, now, leases, a, f, clock, trouble);
      UndoneWithOtherLeases(w, now, leases, leases', a, f, clock, trouble);
    } else {
      var trouble :| PublishedAs(w, now, leases, a, clock, s, extraction, trouble, batch, answers, records);
      assert PublishedAs(w, now', leases', a, clock, s, extraction, trouble, batch, answers, records);
    }
  }

  // ---------------------------------------------------------------- exactly the candidate

  lemma {:induction false} PutDistinctChunks(m: map<RecordKey, DocumentChunk>, chunks: seq<DocumentChunk>, i: nat)
    requires i < |chunks| && forall x, y :: 0 <= x < y < |chunks| ==> ChunkKey(chunks[x]) != ChunkKey(chunks[y])
    ensures ChunkKey(chunks[i]) in PutChunks(m, chunks) && PutChunks(m, chunks)[ChunkKey(chunks[i])] == chunks[i]
  {
    var n := |chunks| - 1;
    if i < n {
      assert forall x :: 0 <= x < n ==> chunks[..n][x] == chunks[x];
      PutDistinctChunks(m, chunks[..n], i);
    }
  }

  lemma {:induction false} PutDistinctVectors(m: map<RecordKey, VectorRecord>, records: seq<VectorRecord>, i: nat)
    requires i < |records| && forall x, y :: 0 <= x < y < |records| ==> VectorKey(records[x]) != VectorKey(records[y])
    ensures VectorKey(records[i]) in PutVectors(m, records)
            && PutVectors(m, records)[VectorKey(records[i])] == records[i]
  {
    var n := |records| - 1;
    if i < n {
      assert forall x :: 0 <= x < n ==> records[..n][x] == records[x];
      PutDistinctVectors(m, records[..n], i);
    }
  }

  lemma KeysAreDistinct(a: Protocol.Attempt, s: Settings, extracted: ExtractedDocument, chunks: seq<DocumentChunk>,
                        answers: seq<(string, seq<Float>)>, records: seq<VectorRecord>, x: nat, y: nat)
    requires s.chunking.Valid() && Stored(a, extracted, s, chunks, answers, records)
    requires x < y < |chunks|
    ensures ChunkKey(chunks[x]) != ChunkKey(chunks[y]) && VectorKey(records[x]) != VectorKey(records[y])
  {
    ChunkIdsAreDistinct(a.document, s.version, a.Generation(), a.startedAt, AllPieces(s.chunking, extracted.sections),
                        chunks, x, y);
  }

  lemma AllKeysAreDistinct(a: Protocol.Attempt, s: Settings, extracted: ExtractedDocument, chunks: seq<DocumentChunk>,
                           answers: seq<(string, seq<Float>)>, records: seq<VectorRecord>)
    requires s.chunking.Valid() && Stored(a, extracted, s, chunks, answers, records)
    ensures forall x, y :: 0 <= x < y < |chunks| ==> ChunkKey(chunks[x]) != ChunkKey(chunks[y])
    ensures forall x, y :: 0 <= x < y < |records| ==> VectorKey(records[x]) != VectorKey(records[y])
    ensures |records| == |chunks| && forall x :: 0 <= x < |chunks| ==> VectorKey(records[x]) == ChunkKey(chunks[x])
  {
    forall x, y | 0 <= x < y < |chunks|
      ensures ChunkKey(chunks[x]) != ChunkKey(chunks[y]) && VectorKey(records[x]) != VectorKey(records[y])
    {
      KeysAreDistinct(a, s, extracted, chunks, answers, records, x, y);
    }
  }

  /** The stores hold these chunks and records, each under its own key, and nothing else for
      the generation. */
  ghost predicate HoldsExactly(now: World, g: GenerationId, chunks: seq<DocumentChunk>, records: seq<VectorRecord>) {
    && |records| == |chunks|
    && (forall i :: 0 <= i < |chunks| ==>
          ChunkKey(chunks[i]) in now.chunks && now.chunks[ChunkKey(chunks[i])] == chunks[i])
    && (forall i :: 0 <= i < |records| ==>
          ChunkKey(chunks[i]) in now.vectors && now.vectors[ChunkKey(chunks[i])] == records[i])
    && (forall k :: k in now.chunks && k.generation == g ==> now.chunks[k] in chunks)
    && (forall k :: k in now.vectors && k.generation == g ==> now.vectors[k] in records)
  }

  /** Once published, and whatever goes wrong afterwards, each chunk is stored under its own
      key with its own record beside it, and nothing else is stored for the candidate. */
  lemma ExactlyOneRecordPerChunk(w: World, a: Protocol.Attempt, clock: Clock, s: Settings, extracted: ExtractedDocument,
                                 trouble: Trouble, chunks: seq<DocumentChunk>, answers: seq<(string, seq<Float>)>,
                                 records: seq<VectorRecord>)
    requires CanAttempt(w, a) && s.chunking.Valid()
    requires Stored(a, extracted, s, chunks, answers, records)
    ensures HoldsExactly(Published(w, a, clock, trouble, chunks, records), a.Generation(), chunks, records)
  {
    MaterialIsOfCandidate(a, extracted, s, chunks, answers, records);
    AllKeysAreDistinct(a, s, extracted, chunks, answers, records);
    CandidateChunks(w, a, chunks);
    CandidateVectors(w, a, records);
    var after := Published(w, a, clock, trouble, chunks, records);
    forall i | 0 <= i < |records|
      ensures ChunkKey(chunks[i]) in after.vectors && after.vectors[ChunkKey(chunks[i])] == records[i]
    {
      assert VectorKey(records[i]) == ChunkKey(chunks[i]);
    }
  }

  lemma CandidateChunks(w: World, a: Protocol.Attempt, chunks: seq<DocumentChunk>)
    requires CanAttempt(w, a) && OfCandidate(a, chunks, [])
    requires forall x, y :: 0 <= x < y < |chunks| ==> ChunkKey(chunks[x]) != ChunkKey(chunks[y])
    ensures var put := PutChunks(w.chunks, chunks);
            var after := WithoutPreviousChunks(put, a);
            && (forall i :: 0 <= i < |chunks| ==>
                  && ChunkKey(chunks[i]) in put && put[ChunkKey(chunks[i])] == chunks[i]
                  && ChunkKey(chunks[i]) in after && after[ChunkKey(chunks[i])] == chunks[i])
            && (forall k :: k in put && k.generation == a.Generation() ==> put[k] in chunks)
            && (forall k :: k in after && k.generation == a.Generation() ==> after[k] in chunks)
  {
    PutChunksTouchesOnly(w.chunks, chunks, a.Generation());
    forall i | 0 <= i < |chunks|
      ensures ChunkKey(chunks[i]) in PutChunks(w.chunks, chunks)
              && PutChunks(w.chunks, chunks)[ChunkKey(chunks[i])] == chunks[i]
    {
      PutDistinctChunks(w.chunks, chunks, i);
    }
  }

  lemma CandidateVectors(w: World, a: Protocol.Attempt, records: seq<VectorRecord>)
    requires CanAttempt(w, a) && OfCandidate(a, [], records)
    requires forall x, y :: 0 <= x < y < |records| ==> VectorKey(records[x]) != VectorKey(records[y])
    ensures var put := PutVectors(w.vectors, records);
            var after := WithoutPreviousVectors(put, a);
            && (forall i :: 0 <= i < |records| ==>
                  && VectorKey(records[i]) in put && put[VectorKey(records[i])] == records[i]
                  && VectorKey(records[i]) in after && after[VectorKey(records[i])] == records[i])
            && (forall k :: k in put && k.generation == a.Generation() ==> put[k] in records)
            && (forall k :: k in after && k.generation == a.Generation() ==> after[k] in records)
  {
    PutVectorsTouchesOnly(w.vectors, records, a.Generation());
    forall i | 0 <= i < |records|
      ensures VectorKey(records[i]) in PutVectors(w.vectors, records)
      ensures PutVectors(w.vectors, records)[VectorKey(records[i])] == records[i]
    {
      PutDistinctVectors(w.vectors, records, i);
    }
  }

  /** After a success without trouble the previous generation has nothing stored, and every
      other generation has what it had. */
  lemma OnlyThePreviousGenerationGoes(w: World, a: Protocol.Attempt, clock: Clock, chunks: seq<DocumentChunk>,
                                      records: seq<VectorRecord>, k: RecordKey)
    requires CanAttempt(w, a) && OfCandidate(a, chunks, records) && k.generation != a.Generation()
    ensures var after := Published(w, a, clock, NO_TROUBLE, chunks, records);
            if ReplacesAnother(a) && k.generation == a.document.activeGeneration.value
               && k.tenant == a.document.tenant then
              k !in after.chunks && k !in after.vectors
            else
              && (k in after.chunks <==> k in w.chunks) && (k in w.chunks ==> after.chunks[k] == w.chunks[k])
              && (k in after.vectors <==> k in w.vectors) && (k in w.vectors ==> after.vectors[k] == w.vectors[k])
  {
    PutChunksTouchesOnly(w.chunks, chunks, a.Generation());
    PutVectorsTouchesOnly(w.vectors, records, a.Generation());
    assert ChunkKnown(w, k) && VectorKnown(w, k) && DocumentKnown(w, a.document.Key());
  }

  // ---------------------------------------------------------------- the index survives

  /** Both stores hold the same under k. */
  predicate SameAt(w: World, now: World, k: RecordKey) {
    && (k in now.chunks <==> k in w.chunks) && (k in w.chunks ==> now.chunks[k] == w.chunks[k])
    && (k in now.vectors <==> k in w.vectors) && (k in w.vectors ==> now.vectors[k] == w.vectors[k])
  }

  /** The document still points to what it pointed to, and everything that is not the
      candidate's is stored as before. */
  ghost predicate IndexKept(w: World, now: World, a: Protocol.Attempt) {
    && a.document.Key() in now.documents
    && now.documents[a.document.Key()].activeGeneration == a.document.activeGeneration
    && forall k: RecordKey :: k.generation != a.Generation() ==> SameAt(w, now, k)
  }

  /** The document points to the candidate, which is stored completely, and everything that
      is neither the candidate's nor its predecessor's is stored as before. */
  ghost predicate IndexReplaced(w: World, now: World, a: Protocol.Attempt, chunks: seq<DocumentChunk>,
                                records: seq<VectorRecord>) {
    && a.document.Key() in now.documents
    && now.documents[a.document.Key()].activeGeneration == Some(a.Generation())
    && HoldsExactly(now, a.Generation(), chunks, records)
    && forall k: RecordKey :: k.generation != a.Generation() && Some(k.generation) != a.document.activeGeneration ==>
         SameAt(w, now, k)
  }

  lemma UndoneKeepsTheIndex(w: World, now: World, leases: Leases.Store, a: Protocol.Attempt, f: Failure, clock: Clock,
                            trouble: Trouble)
    requires CanAttempt(w, a) && UndoneFrom(w, now, leases, a, f, clock, trouble)
    ensures IndexKept(w, now, a)
  {
    var chunks, records, record :| OfCandidate(a, chunks, records)
      && now == Undone(w, a, f, clock, trouble, chunks, records, record).(leases := leases);
    PutChunksTouchesOnly(w.chunks, chunks, a.Generation());
    PutVectorsTouchesOnly(w.vectors, records, a.Generation());
  }

  lemma PublishedReplacesTheIndex(w: World, now: World, leases: Leases.Store, a: Protocol.Attempt, clock: Clock,
                                  s: Settings, extraction: Extraction, trouble: Trouble, batch: seq<DocumentChunk>,
                                  answers: seq<(string, seq<Float>)>, records: seq<VectorRecord>)
    requires CanAttempt(w, a) && s.chunking.Valid()
    requires PublishedAs(w, now, leases, a, clock, s, extraction, trouble, batch, answers, records)
    ensures IndexReplaced(w, now, a, batch, records)
  {
    MaterialIsOfCandidate(a, extraction.document, s, batch, answers, records);
    ExactlyOneRecordPerChunk(w, a, clock, s, extraction.document, trouble, batch, answers, records);
    var published := Published(w, a, clock, trouble, batch, records);
    assert HoldsExactly(published, a.Generation(), batch, records) ==>
           HoldsExactly(now, a.Generation(), batch, records);
    forall k: RecordKey | k.generation != a.Generation() && Some(k.generation) != a.document.activeGeneration
      ensures SameAt(w, now, k)
    {
      OthersAreUntouched(w, a, clock, trouble, batch, records, k);
    }
  }

  lemma OthersAreUntouched(w: World, a: Protocol.Attempt, clock: Clock, trouble: Trouble, chunks: seq<DocumentChunk>,
                           records: seq<VectorRecord>, k: RecordKey)
    requires CanAttempt(w, a) && OfCandidate(a, chunks, records)
    requires k.generation != a.Generation() && Some(k.generation) != a.document.activeGeneration
    ensures SameAt(w, Published(w, a, clock, trouble, chunks, records), k)
  {
    PutChunksTouchesOnly(w.chunks, chunks, a.Generation());
    PutVectorsTouchesOnly(w.vectors, records, a.Generation());
    assert ChunkKnown(w, k) && VectorKnown(w, k);
  }

  lemma PreparationIsNoIndex(w: World, now: World, leases: Leases.Store, a: Protocol.Attempt)
    requires CanAttempt(w, a) && PartlyPrepared(w, now, leases, a)
    ensures IndexKept(w, now, a)
  {
  }

  /** A failed attempt, however much of its clean-up failed as well, or one whose preparation
      raised, leaves the document pointing to what it pointed to, and that generation as it
      was. */
  lemma FailureKeepsTheIndex(w: World, now: World, leases: Leases.Store, a: Protocol.Attempt, clock: Clock,
                             s: Settings, extraction: Extraction, trouble: Trouble, ending: Ending,
                             batch: seq<DocumentChunk>, answers: seq<(string, seq<Float>)>, records: seq<VectorRecord>)
    requires CanAttempt(w, a) && s.chunking.Valid() && (ending.Failed? || ending.Unrecorded? || ending.Escaped?)
    requires Ended(w, now, leases, a, clock, s, extraction, trouble, ending, batch, answers, records)
    ensures IndexKept(w, now, a)
  {
    if ending.Failed? {
      UndoneKeepsTheIndex(w, now, leases, a, ending.failure, clock, trouble);
    } else if ending.Escaped? {
      PreparationIsNoIndex(w, now, leases, a);
    } else {
      var f :| UndoneFrom(w, now, leases, a, f, clock, trouble);
      UndoneKeepsTheIndex(w, now, leases, a, f, clock, trouble);
    }
  }

  /** Wherever an attempt is cancelled, the document points to a generation that is stored as
      completely as before, or to the complete candidate. */
  lemma CancellationKeepsTheIndex(w: World, now: World, leases: Leases.Store, a: Protocol.Attempt, clock: Clock,
                                  s: Settings, extraction: Extraction, batch: seq<DocumentChunk>,
                                  answers: seq<(string, seq<Float>)>, records: seq<VectorRecord>)
    requires CanAttempt(w, a) && s.chunking.Valid()
    requires CutShort(w, now, leases, a, clock, s, extraction, batch, answers, records)
    ensures IndexKept(w, now, a) || IndexReplaced(w, now, a, batch, records)
  {
    if PartlyPrepared(w, now, leases, a) {
      PreparationIsNoIndex(w, now, leases, a);
    } else if exists f, trouble :: UndoneFrom(w, now, leases, a, f, clock, trouble) {
      var f, trouble :| UndoneFrom(w, now, leases, a, f, clock, trouble);
      UndoneKeepsTheIndex(w, now, leases, a, f, clock, trouble);
    } else {
      var trouble :| PublishedAs(w, now, leases, a, clock, s, extraction, trouble, batch, answers, records);
      PublishedReplacesTheIndex(w, now, leases, a, clock, s, extraction, trouble, batch, answers, records);
    }
  }
}
