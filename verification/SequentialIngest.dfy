/** DocumentIngestionService.ingest against the in-memory repositories, with nobody else
    running but the heartbeat of its worker (ingestion.py).  The heartbeat gets its turns
    wherever the service awaits something, and cancels it there when it is lost.  Any call
    may raise: those between extraction and activation, those that clean up, and those that
    ingest does not guard. */
module SequentialIngest {
  import opened Chunking
  import opened Embedding
  import opened Entities
  import opened Heartbeats
  import opened InMemoryStores
  import opened SequentialWorlds
  import opened Windows
  import Leases = InMemoryLeases
  import Protocol

  // ---------------------------------------------------------------- the lease, with its renewals

  /** The lease dictionaries once the attempt has taken its lease. */
  function Held(before: Leases.Store, a: Protocol.Attempt, expiresAt: int): Leases.Store {
    var key := a.document.LeaseOf();
    Leases.Store(before.leases[key := Leases.IngestionLease(key, a.command.job, a.token, expiresAt)],
                 before.tokens[key := a.token],
                 before.executions[key := Leases.Execution(Some(a.command.execution), a.command.job)])
  }

  /** ... and renewals of one key may have changed its expiry, before and since. */
  ghost predicate HeldAs(before: Leases.Store, a: Protocol.Attempt, key: LeaseKey, now: Leases.Store) {
    exists b, expiresAt :: RenewedAt(before, b, key) && now == Held(b, a, expiresAt)
  }

  /** ... and the lease has been given back. */
  ghost predicate ReturnedAs(before: Leases.Store, a: Protocol.Attempt, key: LeaseKey, now: Leases.Store) {
    exists b :: RenewedAt(before, b, key) && now == LeaseReturned(b, a.document.LeaseOf(), a.token)
  }

  lemma OwnRenewal(b: Leases.Store, a: Protocol.Attempt, expiresAt: int, f: int)
    ensures Prolonged(Held(b, a, expiresAt), a.document.LeaseOf(), f) == Held(b, a, f)
  {
    var key := a.document.LeaseOf();
    OverwriteTwice(b.leases, key, Leases.IngestionLease(key, a.command.job, a.token, expiresAt),
                   Leases.IngestionLease(key, a.command.job, a.token, f));
  }

  lemma ForeignRenewal(b: Leases.Store, a: Protocol.Attempt, expiresAt: int, key: LeaseKey, f: int)
    requires key != a.document.LeaseOf()
    ensures Prolonged(Held(b, a, expiresAt), key, f) == Held(Prolonged(b, key, f), a, expiresAt)
  {
    assert Prolonged(Held(b, a, expiresAt), key, f).leases == Held(Prolonged(b, key, f), a, expiresAt).leases;
  }

  lemma RenewalKeepsHeld(before: Leases.Store, a: Protocol.Attempt, key: LeaseKey, s: Leases.Store, s': Leases.Store)
    requires HeldAs(before, a, key, s) && RenewedAt(s, s', key)
    ensures HeldAs(before, a, key, s')
  {
    var b, e :| RenewedAt(before, b, key) && s == Held(b, a, e);
    var f :| s' == Prolonged(s, key, f);
    if key == a.document.LeaseOf() {
      OwnRenewal(b, a, e, f);
    } else {
      ForeignRenewal(b, a, e, key, f);
      assert RenewedAt(b, Prolonged(b, key, f), key);
      RenewedTwice(before, b, Prolonged(b, key, f), key);
    }
  }

  lemma JustHeld(before: Leases.Store, b: Leases.Store, a: Protocol.Attempt, key: LeaseKey, expiresAt: int)
    requires RenewedAt(before, b, key)
    ensures HeldAs(before, a, key, Held(b, a, expiresAt))
  {
  }

  lemma HeldReturns(before: Leases.Store, a: Protocol.Attempt, key: LeaseKey,
                    s: Leases.Store, lease: Leases.IngestionLease)
    requires HeldAs(before, a, key, s)
    requires lease.key == a.document.LeaseOf() && lease.owner == a.command.job && lease.token == a.token
    ensures ReturnedAs(before, a, key, Leases.Effect(s, Leases.Call.Release(lease)))
  {
    var b, e :| RenewedAt(before, b, key) && s == Held(b, a, e);
    assert Leases.Effect(s, Leases.Call.Release(lease)) == LeaseReturned(b, a.document.LeaseOf(), a.token);
  }

  lemma ReturnedSpendsTheToken(w: World, a: Protocol.Attempt, key: LeaseKey, s: Leases.Store)
    requires ReturnedAs(w.leases, a, key, s)
    ensures TokenSpent(w, a, s)
  {
  }

  lemma HoldingSpendsTheToken(w: World, a: Protocol.Attempt, key: LeaseKey, s: Leases.Store)
    requires HeldAs(w.leases, a, key, s)
    ensures TokenSpent(w, a, s)
  {
  }

  // ---------------------------------------------------------------- small facts of the proofs

  lemma OverwriteTwice<K, V>(m: map<K, V>, k: K, x: V, y: V)
    ensures m[k := x][k := y] == m[k := y]
  {
  }

  /** What activation overwrites was written by the preparation. */
  lemma WrittenTwice(w: World, a: Protocol.Attempt, count: nat, clock: Clock)
    ensures var candidate := Protocol.ActiveGeneration(a, count, clock.readyAt, clock.completedAt);
            var ready := Protocol.ReadyGeneration(a, count, clock.readyAt);
            var job := Protocol.SucceededJob(a, count, clock.completedAt);
            var prepared := Prepared(w, a, w.leases);
            && prepared.documents[a.document.Key() := ActivatedDocument(a, candidate, clock)] ==
                 w.documents[a.document.Key() := ActivatedDocument(a, candidate, clock)]
            && w.generations[CandidateKey(a) := ready][CandidateKey(a) := candidate] ==
                 w.generations[CandidateKey(a) := candidate]
            && prepared.jobs[job.Key() := job] == w.jobs[job.Key() := job]
            && prepared.fingerprints[job.MarkerOf() := job.id] == w.fingerprints[job.MarkerOf() := job.id]
  {
  }

  lemma TakenUpTo(a: Protocol.Attempt, chunks: seq<DocumentChunk>, records: seq<VectorRecord>, n: nat, m: nat)
    requires OfCandidate(a, chunks, records) && n <= |chunks| && m <= |records|
    ensures OfCandidate(a, chunks[..n], records[..m])
  {
  }

  /** Before the clean-up begins, all of it has still to be done. */
  lemma NothingUndoneYet(w: World, now: World, leases: Leases.Store, a: Protocol.Attempt, f: Failure, clock: Clock,
                         chunks: seq<DocumentChunk>, records: seq<VectorRecord>, record: Generation)
    requires now == Prepared(w, a, leases).(chunks := PutChunks(w.chunks, chunks),
                                            vectors := PutVectors(w.vectors, records),
                                            generations := w.generations[CandidateKey(a) := record])
    ensures now == Undone(w, a, f, clock, ALL_TROUBLE, chunks, records, record).(leases := leases)
  {
  }

  /** A prepared attempt is one that has stored nothing. */
  lemma PreparedIsHalfBuilt(w: World, a: Protocol.Attempt, leases: Leases.Store, f: Failure, clock: Clock)
    ensures UndoneFrom(w, Prepared(w, a, leases), leases, a, f, clock, ALL_TROUBLE)
  {
    assert PutChunks(w.chunks, []) == w.chunks && PutVectors(w.vectors, []) == w.vectors;
    NothingUndoneYet(w, Prepared(w, a, leases), leases, a, f, clock, [], [], Protocol.BuildingGeneration(a));
    assert OfCandidate(a, [], []);
  }

  /** Why the building of a candidate stops. */
  datatype Stop = Raised(failure: Failure) | Interrupted

  datatype Built = Built(job: Job) | Stopped(stop: Stop)

  // ---------------------------------------------------------------- how a run ends

  /** How an attempt ends: with its lease given back, or, when giving it back raises, with the
      error of that, the lease still held and everything else as it ended inside. */
  ghost predicate AttemptEnded(w: World, now: World, a: Protocol.Attempt, renewed: LeaseKey, extraction: Extraction,
                               clock: Clock, s: Settings, trouble: Trouble, outage: Outage, inner: Ending,
                               ending: Ending, batch: seq<DocumentChunk>, answers: seq<(string, seq<Float>)>,
                               records: seq<VectorRecord>)
    requires s.chunking.Valid()
  {
    && Ended(w, now, now.leases, a, clock, s, extraction, trouble, inner, batch, answers, records)
    && (inner == Escaped ==> EscapedAt(w, now, now.leases, a, outage))
    && if outage.AtRelease?
       then HeldAs(w.leases, a, renewed, now.leases) && ending == AfterRelease(inner)
       else ReturnedAs(w.leases, a, renewed, now.leases) && ending == inner
  }

  /** The error of the release takes the place of any result or error but a cancellation,
      which the worker had asked for and does not look at. */
  function AfterRelease(inner: Ending): Ending {
    if inner == Cancelled then Cancelled else Escaped
  }

  /** Nothing happened but renewals. */
  ghost predicate OnlyRenewed(w: World, now: World, renewed: LeaseKey) {
    now == w.(leases := now.leases) && RenewedAt(w.leases, now.leases, renewed)
  }

  predicate EndsBeforeItsLease(ending: Ending, outage: Outage) {
    || ending == NotFound || ending == NotReady || ending == Cancelled || Early(ending)
    || (ending == Escaped && (outage.AtLookUp? || outage.AtAcquire?))
  }

  /** How a run of ingest ends: before its lease, or as an attempt. */
  ghost predicate RunEnded(w: World, now: World, renewed: LeaseKey, command: IngestDocumentCommand,
                           extraction: Extraction, clock: Clock, s: Settings, trouble: Trouble, outage: Outage,
                           ending: Ending, batch: seq<DocumentChunk>, answers: seq<(string, seq<Float>)>,
                           records: seq<VectorRecord>)
    requires s.chunking.Valid()
  {
    || (EndsBeforeItsLease(ending, outage) && OnlyRenewed(w, now, renewed))
    || exists a, inner ::
         && IsAttempt(w, command, clock, a)
         && AttemptEnded(w, now, a, renewed, extraction, clock, s, trouble, outage, inner, ending,
                         batch, answers, records)
  }

  // ---------------------------------------------------------------- the service

  class DocumentIngestionService {
    const documents: InMemoryDocumentRepository
    const jobs: InMemoryIngestionJobRepository
    const leases: Leases.InMemoryDocumentIngestionLeaseRepository
    const generations: InMemoryIndexGenerationRepository
    const activations: InMemoryIndexActivationRepository
    const chunks: InMemoryChunkStore
    const vectors: InMemoryVectorRepository
    const embeddings: EmbeddingProvider
    const chunking: ChunkingConfig
    const chunkingVersion: string
    const profile: EmbeddingProfile

    /** The activation repository works on the same three repositories. */
    predicate Wired() {
      && activations.documents == documents
      && activations.generations == generations
      && activations.jobs == jobs
      && chunking.Valid()
    }

    /** The heartbeat works on the same repositories, too. */
    predicate Beside(heart: Heartbeat) {
      heart.leases == leases && heart.jobs == jobs
    }

    function SettingsOf(): Settings { Settings(chunking, chunkingVersion, profile) }

    ghost function Contents(): World
      reads documents, jobs, leases, generations, chunks, vectors
    {
      World(documents.documents, jobs.jobs, jobs.fingerprints, generations.generations, leases.Contents(),
            chunks.chunks, vectors.records)
    }

    /** The attempt holds its lease. */
    ghost predicate Holding(w: World, a: Protocol.Attempt, heart: Heartbeat)
      reads leases
    {
      HeldAs(w.leases, a, heart.Key(), leases.Contents())
    }

    constructor (documents: InMemoryDocumentRepository, jobs: InMemoryIngestionJobRepository,
                 leases: Leases.InMemoryDocumentIngestionLeaseRepository,
                 generations: InMemoryIndexGenerationRepository,
                 activations: InMemoryIndexActivationRepository, chunks: InMemoryChunkStore,
                 vectors: InMemoryVectorRepository,
                 embeddings: EmbeddingProvider, chunking: ChunkingConfig, chunkingVersion: string,
                 profile: EmbeddingProfile)
      requires activations.documents == documents && activations.generations == generations && activations.jobs == jobs
      requires chunking.Valid()
      ensures Wired() && this.documents == documents && this.jobs == jobs && this.leases == leases
      ensures this.generations == generations && this.chunks == chunks && this.vectors == vectors
    {
      this.documents, this.jobs, this.leases, this.generations := documents, jobs, leases, generations;
      this.activations, this.chunks, this.vectors, this.embeddings := activations, chunks, vectors, embeddings;
      this.chunking, this.chunkingVersion, this.profile := chunking, chunkingVersion, profile;
    }

    /** An await inside the attempt: the heartbeat gets some turns, and cancels it when lost. */
    method Await(heart: Heartbeat, ghost w: World, ghost a: Protocol.Attempt) returns (cancelled: bool)
      requires Beside(heart) && Holding(w, a, heart)
      modifies leases`leases, heart.queue`extended
      ensures Holding(w, a, heart) && Contents() == old(Contents()).(leases := leases.Contents())
    {
      ghost var before := leases.Contents();
      var clock: seq<int> := *;
      var turns;
      cancelled, turns := heart.Run(clock);
      RenewalKeepsHeld(w.leases, a, heart.Key(), before, leases.Contents());
    }

    /** An await before the lease is taken. */
    method AwaitOutside(heart: Heartbeat, ghost w: World) returns (cancelled: bool)
      requires Beside(heart) && RenewedAt(w.leases, leases.Contents(), heart.Key())
      modifies leases`leases, heart.queue`extended
      ensures RenewedAt(w.leases, leases.Contents(), heart.Key())
    {
      ghost var before := leases.Contents();
      var clock: seq<int> := *;
      var turns;
      cancelled, turns := heart.Run(clock);
      RenewedTwice(w.leases, before, leases.Contents(), heart.Key());
    }

    // -------------------------------------------------------------- building the candidate

    /** Extraction, chunking and embedding: nothing is stored yet. */
    method Materialize(a: Protocol.Attempt, batchSize: nat, extraction: Extraction)
      returns (failure: Option<Failure>, batch: seq<DocumentChunk>, ghost answers: seq<(string, seq<Float>)>,
               records: seq<VectorRecord>)
      requires Wired() && 1 <= batchSize <= 256
      modifies embeddings
      ensures failure.None? ==>
                extraction.Extracted? && Stored(a, extraction.document, SettingsOf(), batch, answers, records)
      ensures extraction.ExtractionRaises? ==> failure == Some(extraction.failure)
      ensures extraction.Extracted? && !SameIdentity(a.document, extraction.document) ==>
                failure == Some(InvalidExtraction)
      ensures extraction.Extracted? && SameIdentity(a.document, extraction.document)
                && AllPieces(chunking, extraction.document.sections) == [] ==>
                failure == Some(InvalidExtraction)
    {
      batch, answers, records := [], [], [];
      if extraction.ExtractionRaises? {
        return Some(extraction.failure), batch, answers, records;
      }
      if !SameIdentity(a.document, extraction.document) {
        return Some(InvalidExtraction), batch, answers, records;
      }
      var outcome := Chunk(chunking, chunkingVersion, a.document, extraction.document, a.Generation(), a.startedAt);
      if outcome.chunks == [] {
        return Some(InvalidExtraction), batch, answers, records;
      }
      batch := outcome.chunks;
      var embedded;
      embedded, answers := EmbedChunks(embeddings, batch, profile, a.command.pipelineVersion, batchSize);
      if embedded.InvalidResponse? {
        return Some(InvalidEmbeddingResponse), batch, answers, records;
      }
      if embedded.ProviderRaised? {
        var error: Failure := *;
        return Some(error), batch, answers, records;
      }
      records := embedded.records;
      failure := None;
    }

    /** put_batch and upsert: either may break off with part of its work done, by an error or
        by a cancellation. */
    method StoreCandidate(a: Protocol.Attempt, batch: seq<DocumentChunk>, records: seq<VectorRecord>, heart: Heartbeat,
                          ghost w: World)
      returns (stop: Option<Stop>, ghost n: nat, ghost m: nat)
      requires Beside(heart) && Holding(w, a, heart)
      modifies chunks, vectors, leases`leases, heart.queue`extended
      ensures Holding(w, a, heart)
      ensures n <= |batch| && m <= |records| && (stop.None? ==> n == |batch| && m == |records|)
      ensures chunks.chunks == PutChunks(old(chunks.chunks), batch[..n])
      ensures vectors.records == PutVectors(old(vectors.records), records[..m])
    {
      assert batch[..|batch|] == batch && records[..|records|] == records && records[..0] == [];
      var error: Failure := *;
      n, m := |batch|, 0;
      var ok := chunks.PutBatch(batch);
      if !ok {
        n :| 0 <= n <= |batch| && chunks.chunks == PutChunks(old(chunks.chunks), batch[..n]);
      }
      var cancelled := Await(heart, w, a);
      if cancelled || !ok {
        stop := Some(if cancelled then Interrupted else Raised(error));
        return;
      }
      ok := vectors.Upsert(records);
      m := |records|;
      if !ok {
        m :| 0 <= m <= |records| && vectors.records == PutVectors(old(vectors.records), records[..m]);
      }
      cancelled := Await(heart, w, a);
      stop := if cancelled then Some(Interrupted) else if !ok then Some(Raised(error)) else None;
    }

    /** The fingerprint is this attempt's own. */
    lemma NotStale(job: Job, w: World, a: Protocol.Attempt)
      requires jobs.jobs == Prepared(w, a, w.leases).jobs && jobs.fingerprints == Prepared(w, a, w.leases).fingerprints
      requires job.Fenced() && job.MarkerOf() == Protocol.RunningJob(a).MarkerOf()
      requires job.id == a.command.job && job.fencingToken == Some(a.token)
      ensures !jobs.Stale(job)
    {
    }

    /** The stores aside, the world is that of a prepared attempt. */
    ghost predicate StillPrepared(w: World, a: Protocol.Attempt)
      reads documents, jobs, leases, generations, chunks, vectors
    {
      Contents() == Prepared(w, a, leases.Contents()).(chunks := chunks.chunks, vectors := vectors.records)
    }

    /** ... and the generation is marked ready. */
    ghost predicate MarkedReady(w: World, a: Protocol.Attempt, ready: Generation)
      reads documents, jobs, leases, generations, chunks, vectors
    {
      Contents() == Prepared(w, a, leases.Contents()).(chunks := chunks.chunks, vectors := vectors.records,
                                                       generations := w.generations[CandidateKey(a) := ready])
    }

    /** Mark the generation ready. */
    method MarkReady(a: Protocol.Attempt, ready: Generation, heart: Heartbeat, ghost w: World) returns (cancelled: bool)
      requires Beside(heart) && Holding(w, a, heart) && StillPrepared(w, a) && ready.Key() == CandidateKey(a)
      modifies generations, leases`leases, heart.queue`extended
      ensures Holding(w, a, heart) && MarkedReady(w, a, ready)
    {
      OverwriteTwice(w.generations, CandidateKey(a), Protocol.BuildingGeneration(a), ready);
      generations.Save(ready);
      cancelled := Await(heart, w, a);
    }

    /** Activate it. */
    method TryToActivate(a: Protocol.Attempt, count: nat, clock: Clock, ghost w: World) returns (r: Built)
      requires Wired() && CanAttempt(w, a)
      requires MarkedReady(w, a, Protocol.ReadyGeneration(a, count, clock.readyAt))
      modifies documents, jobs, generations
      ensures r.Built? ==>
                var candidate := Protocol.ActiveGeneration(a, count, clock.readyAt, clock.completedAt);
                && r.job == Protocol.SucceededJob(a, count, clock.completedAt)
                && documents.documents == w.documents[a.document.Key() := ActivatedDocument(a, candidate, clock)]
                && generations.generations == w.generations[CandidateKey(a) := candidate]
                && jobs.jobs == w.jobs[r.job.Key() := r.job]
                && jobs.fingerprints == w.fingerprints[r.job.MarkerOf() := r.job.id]
      ensures r.Stopped? ==>
                Contents() == old(Contents()) && r.stop == Raised(ActivationConflict)
    {
      var ready := Protocol.ReadyGeneration(a, count, clock.readyAt);
      var succeeded := Protocol.SucceededJob(a, count, clock.completedAt);
      NotStale(succeeded, w, a);
      DocumentsAreFiled(w, a);
      var activation := activations.Activate(ready, succeeded, Working(a).revision, clock.completedAt);
      if activation.Refused? {
        return Stopped(Raised(ActivationConflict));
      }
      WrittenTwice(w, a, count, clock);
      r := Built(succeeded);
    }

    /** Both; the save of the generation may raise as well. */
    method Activate(a: Protocol.Attempt, count: nat, clock: Clock, heart: Heartbeat, ghost w: World) returns (r: Built)
      requires Wired() && Beside(heart) && CanAttempt(w, a) && Holding(w, a, heart) && StillPrepared(w, a)
      modifies documents, jobs, generations, leases`leases, heart.queue`extended
      ensures Holding(w, a, heart)
      ensures r.Built? ==>
                var candidate := Protocol.ActiveGeneration(a, count, clock.readyAt, clock.completedAt);
                && r.job == Protocol.SucceededJob(a, count, clock.completedAt)
                && documents.documents == w.documents[a.document.Key() := ActivatedDocument(a, candidate, clock)]
                && generations.generations == w.generations[CandidateKey(a) := candidate]
                && jobs.jobs == w.jobs[r.job.Key() := r.job]
                && jobs.fingerprints == w.fingerprints[r.job.MarkerOf() := r.job.id]
      ensures r.Stopped? ==> exists record :: MarkedReady(w, a, record)
    {
      var ready := Protocol.ReadyGeneration(a, count, clock.readyAt);
      var cancelled := MarkReady(a, ready, heart, w);
      var raises: bool := *;
      if cancelled || raises {
        var error: Failure := *;
        return Stopped(if cancelled then Interrupted else Raised(error));
      }
      r := TryToActivate(a, count, clock, w);
      assert r.Stopped? ==> MarkedReady(w, a, ready);
    }

    lemma DocumentsAreFiled(w: World, a: Protocol.Attempt)
      requires CanAttempt(w, a) && documents.documents == Prepared(w, a, w.leases).documents
      ensures forall k :: k in documents.documents ==> documents.documents[k].Key() == k
    {
      forall k | k in documents.documents ensures documents.documents[k].Key() == k {
        assert DocumentKnown(w, k);
      }
    }

    /** The world when the building stopped: parts of the candidate may be stored. */
    ghost predicate HalfBuilt(w: World, a: Protocol.Attempt, storedChunks: seq<DocumentChunk>,
                              storedRecords: seq<VectorRecord>)
      reads documents, jobs, leases, generations, chunks, vectors
    {
      && OfCandidate(a, storedChunks, storedRecords)
      && CandidateKey(a) in generations.generations
      && Contents() == Prepared(w, a, leases.Contents()).(
           chunks := PutChunks(w.chunks, storedChunks), vectors := PutVectors(w.vectors, storedRecords),
           generations := w.generations[CandidateKey(a) := generations.generations[CandidateKey(a)]])
    }

    lemma StoredInPart(w: World, a: Protocol.Attempt, storedChunks: seq<DocumentChunk>,
                       storedRecords: seq<VectorRecord>)
      requires OfCandidate(a, storedChunks, storedRecords)
      requires StillPrepared(w, a) || exists record :: MarkedReady(w, a, record)
      requires chunks.chunks == PutChunks(w.chunks, storedChunks)
               && vectors.records == PutVectors(w.vectors, storedRecords)
      ensures HalfBuilt(w, a, storedChunks, storedRecords)
    {
      if StillPrepared(w, a) {
        assert generations.generations == w.generations[CandidateKey(a) := Protocol.BuildingGeneration(a)];
      } else {
        var record :| MarkedReady(w, a, record);
        assert generations.generations == w.generations[CandidateKey(a) := record];
      }
    }

    /** The world once published, as far as the previous generation was removed. */
    ghost predicate PublishedUpTo(w: World, a: Protocol.Attempt, clock: Clock, left: Trouble, batch: seq<DocumentChunk>,
                                  records: seq<VectorRecord>)
      reads documents, jobs, leases, generations, chunks, vectors
    {
      Contents() == Published(w, a, clock, left, batch, records).(leases := leases.Contents())
    }

    /** Store the objects and activate the generation; the previous one is still there. */
    method Publish(a: Protocol.Attempt, batch: seq<DocumentChunk>, records: seq<VectorRecord>, clock: Clock,
                   heart: Heartbeat, ghost w: World)
      returns (r: Built, ghost storedChunks: seq<DocumentChunk>, ghost storedRecords: seq<VectorRecord>)
      requires Wired() && Beside(heart) && CanAttempt(w, a) && Holding(w, a, heart)
      requires Contents() == Prepared(w, a, leases.Contents()) && OfCandidate(a, batch, records) && |records| == |batch|
      modifies documents, jobs, generations, chunks, vectors, leases`leases, heart.queue`extended
      ensures Holding(w, a, heart)
      ensures r.Built? ==>
                r.job == Protocol.SucceededJob(a, |batch|, clock.completedAt)
                && PublishedUpTo(w, a, clock, ALL_TROUBLE, batch, records)
      ensures r.Stopped? ==> HalfBuilt(w, a, storedChunks, storedRecords)
    {
      ghost var n, m;
      var stop;
      stop, n, m := StoreCandidate(a, batch, records, heart, w);
      storedChunks, storedRecords := batch[..n], records[..m];
      TakenUpTo(a, batch, records, n, m);
      assert StillPrepared(w, a);
      if stop.Some? {
        StoredInPart(w, a, storedChunks, storedRecords);
        return Stopped(stop.value), storedChunks, storedRecords;
      }
      assert storedChunks == batch && storedRecords == records;
      r := ActivateStored(a, batch, records, clock, heart, w);
    }

    /** The second half of it: everything is stored. */
    method ActivateStored(a: Protocol.Attempt, batch: seq<DocumentChunk>, records: seq<VectorRecord>, clock: Clock,
                          heart: Heartbeat, ghost w: World)
      returns (r: Built)
      requires Wired() && Beside(heart) && CanAttempt(w, a) && Holding(w, a, heart)
      requires StillPrepared(w, a) && OfCandidate(a, batch, records)
      requires chunks.chunks == PutChunks(w.chunks, batch) && vectors.records == PutVectors(w.vectors, records)
      modifies documents, jobs, generations, leases`leases, heart.queue`extended
      ensures Holding(w, a, heart)
      ensures r.Built? ==>
                r.job == Protocol.SucceededJob(a, |batch|, clock.completedAt)
                && PublishedUpTo(w, a, clock, ALL_TROUBLE, batch, records)
      ensures r.Stopped? ==> HalfBuilt(w, a, batch, records)
    {
      r := Activate(a, |batch|, clock, heart, w);
      if r.Stopped? {
        StoredInPart(w, a, batch, records);
      }
    }

    // -------------------------------------------------------------- removing the previous generation

    method AwaitPublished(a: Protocol.Attempt, clock: Clock, heart: Heartbeat, ghost w: World, ghost left: Trouble,
                          ghost batch: seq<DocumentChunk>, ghost records: seq<VectorRecord>)
      returns (cancelled: bool)
      requires Beside(heart) && Holding(w, a, heart) && PublishedUpTo(w, a, clock, left, batch, records)
      modifies leases`leases, heart.queue`extended
      ensures Holding(w, a, heart) && PublishedUpTo(w, a, clock, left, batch, records)
    {
      cancelled := Await(heart, w, a);
    }

    /** Best effort, and cancelled anywhere: left says what is left to do in the end. */
    method SupersedePrevious(a: Protocol.Attempt, clock: Clock, trouble: Trouble, heart: Heartbeat, ghost w: World,
                             ghost batch: seq<DocumentChunk>, ghost records: seq<VectorRecord>)
      returns (cancelled: bool, ghost left: Trouble)
      requires Beside(heart) && Holding(w, a, heart) && PublishedUpTo(w, a, clock, ALL_TROUBLE, batch, records)
      modifies generations, chunks, vectors, leases`leases, heart.queue`extended
      ensures Holding(w, a, heart) && (!cancelled ==> left == trouble.(document := true, job := true))
      ensures PublishedUpTo(w, a, clock, left, batch, records)
    {
      left := ALL_TROUBLE;
      cancelled := AwaitPublished(a, clock, heart, w, left, batch, records);
      if cancelled {
        return;
      }
      left := SupersedeRecordStep(a, clock, trouble, w, batch, records);
      cancelled := AwaitPublished(a, clock, heart, w, left, batch, records);
      if cancelled {
        return;
      }
      left := DropChunksStep(a, clock, trouble, w, batch, records);
      cancelled := AwaitPublished(a, clock, heart, w, left, batch, records);
      if cancelled {
        return;
      }
      left := DropVectorsStep(a, clock, trouble, w, batch, records);
      cancelled := AwaitPublished(a, clock, heart, w, left, batch, records);
    }

    method SupersedeRecordStep(a: Protocol.Attempt, clock: Clock, trouble: Trouble, ghost w: World,
                               ghost batch: seq<DocumentChunk>, ghost records: seq<VectorRecord>)
      returns (ghost left: Trouble)
      requires PublishedUpTo(w, a, clock, ALL_TROUBLE, batch, records)
      modifies generations
      ensures left == ALL_TROUBLE.(generation := trouble.generation)
      ensures PublishedUpTo(w, a, clock, left, batch, records)
    {
      left := ALL_TROUBLE.(generation := trouble.generation);
      if !trouble.generation {
        SupersedeRecord(a);
      }
    }

    method DropChunksStep(a: Protocol.Attempt, clock: Clock, trouble: Trouble, ghost w: World,
                          ghost batch: seq<DocumentChunk>, ghost records: seq<VectorRecord>)
      returns (ghost left: Trouble)
      requires PublishedUpTo(w, a, clock, ALL_TROUBLE.(generation := trouble.generation), batch, records)
      modifies chunks
      ensures left == ALL_TROUBLE.(generation := trouble.generation, chunks := trouble.chunks)
      ensures PublishedUpTo(w, a, clock, left, batch, records)
    {
      left := ALL_TROUBLE.(generation := trouble.generation, chunks := trouble.chunks);
      if !trouble.chunks && ReplacesAnother(a) {
        chunks.DeleteGeneration(a.document.tenant, a.document.id, a.document.activeGeneration.value);
      }
    }

    method DropVectorsStep(a: Protocol.Attempt, clock: Clock, trouble: Trouble, ghost w: World,
                           ghost batch: seq<DocumentChunk>, ghost records: seq<VectorRecord>)
      returns (ghost left: Trouble)
      requires PublishedUpTo(w, a, clock, ALL_TROUBLE.(generation := trouble.generation, chunks := trouble.chunks),
                             batch, records)
      modifies vectors
      ensures left == trouble.(document := true, job := true)
      ensures PublishedUpTo(w, a, clock, left, batch, records)
    {
      left := trouble.(document := true, job := true);
      if !trouble.vectors && ReplacesAnother(a) {
        vectors.DeleteGeneration(a.document.tenant, a.document.id, a.document.activeGeneration.value);
      }
    }

    method SupersedeRecord(a: Protocol.Attempt)
      modifies generations
      ensures generations.generations == PreviousSuperseded(old(generations.generations), a)
    {
      if ReplacesAnother(a) && PreviousKey(a) in generations.generations {
        var previous := generations.generations[PreviousKey(a)].(status := GenerationStatus.Superseded);
        generations.generations := generations.generations[PreviousKey(a) := previous];
      }
    }

    // -------------------------------------------------------------- the except block

    method DeleteCandidateChunks(a: Protocol.Attempt, ghost w: World, ghost storedChunks: seq<DocumentChunk>)
      requires CanAttempt(w, a) && OfCandidate(a, storedChunks, [])
               && chunks.chunks == PutChunks(w.chunks, storedChunks)
      modifies chunks
      ensures chunks.chunks == w.chunks
    {
      chunks.DeleteGeneration(a.document.tenant, a.document.id, a.Generation());
      forall k | k in w.chunks ensures ChunkKey(w.chunks[k]) == k {
        assert ChunkKnown(w, k);
      }
      ChunksLeaveNoTrace(w.chunks, storedChunks, a.document.tenant, a.document.id, a.Generation());
    }

    method DeleteCandidateVectors(a: Protocol.Attempt, ghost w: World, ghost storedRecords: seq<VectorRecord>)
      requires CanAttempt(w, a) && OfCandidate(a, [], storedRecords)
               && vectors.records == PutVectors(w.vectors, storedRecords)
      modifies vectors
      ensures vectors.records == w.vectors
    {
      vectors.DeleteGeneration(a.document.tenant, a.document.id, a.Generation());
      forall k | k in w.vectors ensures VectorKey(w.vectors[k]) == k {
        assert VectorKnown(w, k);
      }
      VectorsLeaveNoTrace(w.vectors, storedRecords, a.document.tenant, a.document.id, a.Generation());
    }

    method FailGeneration(a: Protocol.Attempt, ghost w: World, ghost record: Generation)
      requires generations.generations == w.generations[CandidateKey(a) := record]
      modifies generations
      ensures generations.generations ==
                w.generations[CandidateKey(a) := Protocol.BuildingGeneration(a).(status := GenerationFailed)]
    {
      var failed := Protocol.BuildingGeneration(a).(status := GenerationFailed);
      OverwriteTwice(w.generations, CandidateKey(a), record, failed);
      generations.Save(failed);
    }

    /** A document that was marked for this attempt is marked failed; any other is left alone. */
    method RestoreDocument(original: Document, clock: Clock)
      requires original.Key() in documents.documents && documents.documents[original.Key()].Key() == original.Key()
      modifies documents
      ensures var key := original.Key();
              var current := old(documents.documents)[key];
              documents.documents ==
                if current.status == Processing && current.activeGeneration.None?
                then old(documents.documents)[key := current.(status := DocumentFailed, updatedAt := clock.restoredAt,
                                                              revision := current.revision + 1)]
                else old(documents.documents)
    {
      var current := documents.documents[original.Key()];
      if current.status != Processing || current.activeGeneration.Some? {
        return;
      }
      var restored :=
        documents.Save(current.(status := DocumentFailed, updatedAt := clock.restoredAt), Some(current.revision));
    }

    method MarkDocumentFailed(a: Protocol.Attempt, clock: Clock, ghost w: World)
      requires CanAttempt(w, a) && documents.documents == Prepared(w, a, w.leases).documents
      modifies documents
      ensures documents.documents == RestoredDocuments(w, a, clock)
    {
      RestoreDocument(a.document, clock);
      if a.document.activeGeneration.None? {
        OverwriteTwice(w.documents, a.document.Key(), Working(a), documents.documents[a.document.Key()]);
      }
    }

    method RecordFailure(a: Protocol.Attempt, failure: Failure, clock: Clock, ghost w: World)
      requires jobs.jobs == Prepared(w, a, w.leases).jobs && jobs.fingerprints == Prepared(w, a, w.leases).fingerprints
      modifies jobs
      ensures jobs.jobs == RolledBack(w, a, failure, clock).jobs
      ensures jobs.fingerprints == RolledBack(w, a, failure, clock).fingerprints
    {
      var failed := Protocol.FailedJob(a, FailureCode(failure), clock.failedAt);
      NotStale(failed, w, a);
      OverwriteTwice(w.jobs, failed.Key(), Protocol.RunningJob(a), failed);
      var saved := jobs.Save(failed);
    }

    /** The world in the middle of the clean-up, as far as it was done. */
    ghost predicate UndoneUpTo(w: World, a: Protocol.Attempt, failure: Failure, clock: Clock, left: Trouble,
                               storedChunks: seq<DocumentChunk>, storedRecords: seq<VectorRecord>, record: Generation)
      reads documents, jobs, leases, generations, chunks, vectors
    {
      && OfCandidate(a, storedChunks, storedRecords)
      && Contents() == Undone(w, a, failure, clock, left, storedChunks, storedRecords, record)
         .(leases := leases.Contents())
    }

    method AwaitUndone(a: Protocol.Attempt, failure: Failure, clock: Clock, heart: Heartbeat, ghost w: World,
                       ghost left: Trouble, ghost storedChunks: seq<DocumentChunk>,
                       ghost storedRecords: seq<VectorRecord>, ghost record: Generation)
      returns (cancelled: bool)
      requires Beside(heart) && Holding(w, a, heart)
      requires UndoneUpTo(w, a, failure, clock, left, storedChunks, storedRecords, record)
      modifies leases`leases, heart.queue`extended
      ensures Holding(w, a, heart) && UndoneUpTo(w, a, failure, clock, left, storedChunks, storedRecords, record)
    {
      cancelled := Await(heart, w, a);
    }

    /** The deletions of the clean-up. */
    method CleanUpCandidate(a: Protocol.Attempt, failure: Failure, clock: Clock, trouble: Trouble, heart: Heartbeat,
                            ghost w: World, ghost storedChunks: seq<DocumentChunk>,
                            ghost storedRecords: seq<VectorRecord>, ghost record: Generation)
      returns (cancelled: bool, ghost left: Trouble)
      requires Beside(heart) && CanAttempt(w, a) && Holding(w, a, heart)
      requires UndoneUpTo(w, a, failure, clock, ALL_TROUBLE, storedChunks, storedRecords, record)
      modifies chunks, vectors, leases`leases, heart.queue`extended
      ensures Holding(w, a, heart)
      ensures !cancelled ==> left == ALL_TROUBLE.(chunks := trouble.chunks, vectors := trouble.vectors)
      ensures UndoneUpTo(w, a, failure, clock, left, storedChunks, storedRecords, record)
    {
      left := ALL_TROUBLE.(chunks := trouble.chunks);
      assert OfCandidate(a, storedChunks, []) && OfCandidate(a, [], storedRecords);
      if !trouble.chunks {
        DeleteCandidateChunks(a, w, storedChunks);
      }
      cancelled := AwaitUndone(a, failure, clock, heart, w, left, storedChunks, storedRecords, record);
      if cancelled {
        return;
      }
      if !trouble.vectors {
        DeleteCandidateVectors(a, w, storedRecords);
      }
      left := ALL_TROUBLE.(chunks := trouble.chunks, vectors := trouble.vectors);
      cancelled := AwaitUndone(a, failure, clock, heart, w, left, storedChunks, storedRecords, record);
    }

    method FailGenerationStep(a: Protocol.Attempt, failure: Failure, clock: Clock, trouble: Trouble, ghost w: World,
                              ghost storedChunks: seq<DocumentChunk>, ghost storedRecords: seq<VectorRecord>,
                              ghost record: Generation)
      returns (ghost left: Trouble)
      requires UndoneUpTo(w, a, failure, clock, ALL_TROUBLE.(chunks := trouble.chunks, vectors := trouble.vectors),
                          storedChunks, storedRecords, record)
      modifies generations
      ensures left == trouble.(document := true, job := true)
      ensures UndoneUpTo(w, a, failure, clock, left, storedChunks, storedRecords, record)
    {
      left := trouble.(document := true, job := true);
      if !trouble.generation {
        FailGeneration(a, w, record);
      }
    }

    method RestoreStep(a: Protocol.Attempt, failure: Failure, clock: Clock, trouble: Trouble, ghost w: World,
                       ghost storedChunks: seq<DocumentChunk>, ghost storedRecords: seq<VectorRecord>,
                       ghost record: Generation)
      returns (ghost left: Trouble)
      requires CanAttempt(w, a)
      requires UndoneUpTo(w, a, failure, clock, trouble.(document := true, job := true),
                          storedChunks, storedRecords, record)
      modifies documents
      ensures left == trouble.(job := true)
      ensures UndoneUpTo(w, a, failure, clock, left, storedChunks, storedRecords, record)
    {
      left := trouble.(job := true);
      if !trouble.document {
        MarkDocumentFailed(a, clock, w);
      }
    }

    /** The other two best-effort steps: the generation's record and the document. */
    method CleanUpRecords(a: Protocol.Attempt, failure: Failure, clock: Clock, trouble: Trouble, heart: Heartbeat,
                          ghost w: World, ghost storedChunks: seq<DocumentChunk>,
                          ghost storedRecords: seq<VectorRecord>, ghost record: Generation)
      returns (cancelled: bool, ghost left: Trouble)
      requires Beside(heart) && CanAttempt(w, a) && Holding(w, a, heart)
      requires UndoneUpTo(w, a, failure, clock, ALL_TROUBLE.(chunks := trouble.chunks, vectors := trouble.vectors),
                          storedChunks, storedRecords, record)
      modifies documents, generations, leases`leases, heart.queue`extended
      ensures Holding(w, a, heart) && (!cancelled ==> left == trouble.(job := true))
      ensures UndoneUpTo(w, a, failure, clock, left, storedChunks, storedRecords, record)
    {
      left := FailGenerationStep(a, failure, clock, trouble, w, storedChunks, storedRecords, record);
      cancelled := AwaitUndone(a, failure, clock, heart, w, left, storedChunks, storedRecords, record);
      if cancelled {
        return;
      }
      left := RestoreStep(a, failure, clock, trouble, w, storedChunks, storedRecords, record);
      cancelled := AwaitUndone(a, failure, clock, heart, w, left, storedChunks, storedRecords, record);
    }

    /** The record of the failure, without which ingest raises that error instead. */
    method RecordStep(a: Protocol.Attempt, failure: Failure, clock: Clock, trouble: Trouble, ghost w: World,
                      ghost storedChunks: seq<DocumentChunk>, ghost storedRecords: seq<VectorRecord>,
                      ghost record: Generation)
      requires UndoneUpTo(w, a, failure, clock, trouble.(job := true), storedChunks, storedRecords, record)
      modifies jobs
      ensures UndoneUpTo(w, a, failure, clock, trouble, storedChunks, storedRecords, record)
    {
      if !trouble.job {
        RecordFailure(a, failure, clock, w);
      }
    }

    lemma UpToIsFrom(w: World, a: Protocol.Attempt, failure: Failure, clock: Clock, left: Trouble,
                     storedChunks: seq<DocumentChunk>, storedRecords: seq<VectorRecord>, record: Generation)
      requires UndoneUpTo(w, a, failure, clock, left, storedChunks, storedRecords, record)
      ensures UndoneFrom(w, Contents(), leases.Contents(), a, failure, clock, left)
    {
    }

    /** The except block: three best-effort steps, and the record of the failure. */
    method Recover(a: Protocol.Attempt, failure: Failure, clock: Clock, trouble: Trouble, heart: Heartbeat,
                   ghost w: World, ghost storedChunks: seq<DocumentChunk>, ghost storedRecords: seq<VectorRecord>)
      returns (ending: Ending, ghost left: Trouble)
      requires Wired() && Beside(heart) && CanAttempt(w, a) && Holding(w, a, heart)
      requires HalfBuilt(w, a, storedChunks, storedRecords)
      modifies documents, jobs, generations, chunks, vectors, leases`leases, heart.queue`extended
      ensures Holding(w, a, heart)
      ensures ending == Cancelled || ending == (if trouble.job then Unrecorded(a) else Ending.Failed(a, failure))
      ensures UndoneFrom(w, Contents(), leases.Contents(), a, failure, clock, left)
      ensures ending != Cancelled ==> left == trouble
    {
      ghost var record := generations.generations[CandidateKey(a)];
      NothingUndoneYet(w, Contents(), leases.Contents(), a, failure, clock, storedChunks, storedRecords, record);
      var cancelled;
      cancelled, left := CleanUpCandidate(a, failure, clock, trouble, heart, w, storedChunks, storedRecords, record);
      if !cancelled {
        cancelled, left := CleanUpRecords(a, failure, clock, trouble, heart, w, storedChunks, storedRecords, record);
      }
      if !cancelled {
        RecordStep(a, failure, clock, trouble, w, storedChunks, storedRecords, record);
        left := trouble;
      }
      UpToIsFrom(w, a, failure, clock, left, storedChunks, storedRecords, record);
      ending := if cancelled then Cancelled else if trouble.job then Unrecorded(a) else Ending.Failed(a, failure);
    }

    // -------------------------------------------------------------- the attempt

    /** The inner try block and its except block. */
    method BuildOrRecover(a: Protocol.Attempt, batchSize: nat, extraction: Extraction, clock: Clock, trouble: Trouble,
                          heart: Heartbeat, ghost w: World)
      returns (ending: Ending, ghost batch: seq<DocumentChunk>, ghost answers: seq<(string, seq<Float>)>,
               ghost records: seq<VectorRecord>)
      requires Wired() && Beside(heart) && 1 <= batchSize <= 256 && CanAttempt(w, a) && Holding(w, a, heart)
      requires Contents() == Prepared(w, a, leases.Contents())
      modifies documents, jobs, generations, chunks, vectors, embeddings, leases`leases, heart.queue`extended
      ensures Holding(w, a, heart) && (ending.Failed? || ending.Unrecorded? || ending.Succeeded? || ending.Cancelled?)
      ensures Ended(w, Contents(), leases.Contents(), a, clock, SettingsOf(), extraction, trouble, ending,
                    batch, answers, records)
    {
      var failure, built, vectorRecords;
      failure, built, answers, vectorRecords := Materialize(a, batchSize, extraction);
      batch, records := built, vectorRecords;
      var cancelled := Await(heart, w, a);
      assert Contents() == Prepared(w, a, leases.Contents());
      if cancelled {
        PreparedIsHalfBuilt(w, a, leases.Contents(), Unexpected, clock);
        return Cancelled, batch, answers, records;
      }
      if failure.Some? {
        PreparedIsStored(w, a);
        ghost var left;
        ending, left := Recover(a, failure.value, clock, trouble, heart, w, [], []);
        RecoveredIsEnded(w, a, failure.value, clock, extraction, trouble, left, ending, batch, answers, records);
        return;
      }
      ending := PublishOrRecover(a, built, vectorRecords, clock, trouble, heart, w, extraction, answers);
    }

    lemma PreparedIsStored(w: World, a: Protocol.Attempt)
      requires Contents() == Prepared(w, a, leases.Contents())
      ensures HalfBuilt(w, a, [], [])
    {
      assert PutChunks(w.chunks, []) == w.chunks && PutVectors(w.vectors, []) == w.vectors;
      assert OfCandidate(a, [], []);
    }

    /** What the except block leaves is one of the ends of an attempt. */
    lemma RecoveredIsEnded(w: World, a: Protocol.Attempt, failure: Failure, clock: Clock, extraction: Extraction,
                           trouble: Trouble, left: Trouble, ending: Ending, batch: seq<DocumentChunk>,
                           answers: seq<(string, seq<Float>)>, records: seq<VectorRecord>)
      requires Wired()
      requires ending == Cancelled || ending == (if trouble.job then Unrecorded(a) else Ending.Failed(a, failure))
      requires UndoneFrom(w, Contents(), leases.Contents(), a, failure, clock, left)
      requires ending != Cancelled ==> left == trouble
      ensures Ended(w, Contents(), leases.Contents(), a, clock, SettingsOf(), extraction, trouble, ending,
                    batch, answers, records)
    {
    }

    /** From the first put on. */
    method PublishOrRecover(a: Protocol.Attempt, batch: seq<DocumentChunk>, records: seq<VectorRecord>, clock: Clock,
                            trouble: Trouble, heart: Heartbeat, ghost w: World, ghost extraction: Extraction,
                            ghost answers: seq<(string, seq<Float>)>)
      returns (ending: Ending)
      requires Wired() && Beside(heart) && CanAttempt(w, a) && Holding(w, a, heart)
      requires Contents() == Prepared(w, a, leases.Contents())
      requires extraction.Extracted? && Stored(a, extraction.document, SettingsOf(), batch, answers, records)
      modifies documents, jobs, generations, chunks, vectors, leases`leases, heart.queue`extended
      ensures Holding(w, a, heart) && (ending.Failed? || ending.Unrecorded? || ending.Succeeded? || ending.Cancelled?)
      ensures Ended(w, Contents(), leases.Contents(), a, clock, SettingsOf(), extraction, trouble, ending,
                    batch, answers, records)
    {
      MaterialIsOfCandidate(a, extraction.document, SettingsOf(), batch, answers, records);
      var r;
      ghost var storedChunks, storedRecords;
      r, storedChunks, storedRecords := Publish(a, batch, records, clock, heart, w);
      if r.Built? {
        var cancelled;
        ghost var left;
        cancelled, left := SupersedePrevious(a, clock, trouble, heart, w, batch, records);
        ending := if cancelled then Cancelled else Ending.Succeeded(a, r.job);
        PublishedIsEnded(w, a, clock, extraction, trouble, left, ending, batch, answers, records);
        return;
      }
      if r.stop.Interrupted? {
        HalfBuiltIsCutShort(w, a, clock, extraction, storedChunks, storedRecords, batch, answers, records);
        return Cancelled;
      }
      ghost var left;
      ending, left := Recover(a, r.stop.failure, clock, trouble, heart, w, storedChunks, storedRecords);
      RecoveredIsEnded(w, a, r.stop.failure, clock, extraction, trouble, left, ending, batch, answers, records);
    }

    lemma PublishedIsEnded(w: World, a: Protocol.Attempt, clock: Clock, extraction: Extraction, trouble: Trouble,
                           left: Trouble, ending: Ending, batch: seq<DocumentChunk>,
                           answers: seq<(string, seq<Float>)>, records: seq<VectorRecord>)
      requires Wired() && PublishedUpTo(w, a, clock, left, batch, records)
      requires extraction.Extracted? && Stored(a, extraction.document, SettingsOf(), batch, answers, records)
      requires ending == Cancelled
               || (&& ending == Ending.Succeeded(a, Protocol.SucceededJob(a, |batch|, clock.completedAt))
                   && left == trouble.(document := true, job := true))
      ensures Ended(w, Contents(), leases.Contents(), a, clock, SettingsOf(), extraction, trouble, ending,
                    batch, answers, records)
    {
      assert PublishedAs(w, Contents(), leases.Contents(), a, clock, SettingsOf(), extraction, left,
                         batch, answers, records);
      assert ending.Succeeded? ==>
          Published(w, a, clock, left, batch, records) == Published(w, a, clock, trouble, batch, records);
    }

    lemma HalfBuiltIsCutShort(w: World, a: Protocol.Attempt, clock: Clock, extraction: Extraction,
                              storedChunks: seq<DocumentChunk>, storedRecords: seq<VectorRecord>,
                              batch: seq<DocumentChunk>, answers: seq<(string, seq<Float>)>, records: seq<VectorRecord>)
      requires Wired() && HalfBuilt(w, a, storedChunks, storedRecords)
      ensures CutShort(w, Contents(), leases.Contents(), a, clock, SettingsOf(), extraction, batch, answers, records)
    {
      NothingUndoneYet(w, Contents(), leases.Contents(), a, Unexpected, clock, storedChunks, storedRecords,
                       generations.generations[CandidateKey(a)]);
      assert UndoneFrom(w, Contents(), leases.Contents(), a, Unexpected, clock, ALL_TROUBLE);
    }

    /** A document without an index is marked before the work starts. */
    method MarkProcessing(a: Protocol.Attempt)
      requires a.document.Key() in documents.documents && documents.documents[a.document.Key()] == a.document
      modifies documents
      ensures documents.documents ==
                if a.document.activeGeneration.None? then old(documents.documents)[a.document.Key() := Working(a)]
                else old(documents.documents)
    {
      if a.document.activeGeneration.None? {
        var saved := documents.Save(a.document.(status := Processing, updatedAt := a.startedAt),
                                    Some(a.document.revision));
      }
    }

    /** Claim the job; None when it is this attempt's now. */
    method ClaimJob(a: Protocol.Attempt, outage: Outage, heart: Heartbeat, ghost w: World)
      returns (ending: Option<Ending>)
      requires Wired() && Beside(heart) && CanAttempt(w, a) && Holding(w, a, heart)
      requires Contents() == w.(leases := leases.Contents())
      modifies jobs, leases`leases, heart.queue`extended
      ensures Holding(w, a, heart)
      ensures ending.None? ==> Contents() == Claimed(w, a, leases.Contents())
      ensures ending.Some? ==> Contents() == w.(leases := leases.Contents())
      ensures ending == Some(Escaped) ==> outage.AtClaim?
      ensures ending.Some? && ending.value != Cancelled && ending.value != Escaped ==> Early(ending.value)
      ensures ending.Some? && ending.value.AlreadyDone? ==> HandedOut(w.jobs, a.document.tenant, ending.value.job)
    {
      var cancelled := Await(heart, w, a);
      if cancelled {
        return Some(Cancelled);
      }
      if outage.AtClaim? {
        return Some(Escaped);
      }
      var claim := jobs.Claim(Protocol.RunningJob(a));
      if claim.ClaimConflict? {
        return Some(Conflict);
      }
      if !claim.acquired {
        return Some(if claim.job.status == JobStatus.Succeeded then AlreadyDone(claim.job) else InProgress);
      }
      ending := None;
    }

    /** Record the generation and mark the document. */
    method RecordAndMark(a: Protocol.Attempt, outage: Outage, heart: Heartbeat, ghost w: World)
      returns (ending: Option<Ending>)
      requires Wired() && Beside(heart) && CanAttempt(w, a) && Holding(w, a, heart)
      requires Contents() == Claimed(w, a, leases.Contents())
      modifies documents, generations, leases`leases, heart.queue`extended
      ensures Holding(w, a, heart)
      ensures ending.None? ==> Contents() == Prepared(w, a, leases.Contents())
      ensures ending.Some? ==> ending.value == Cancelled || ending.value == Escaped
      ensures ending.Some? ==> PartlyPrepared(w, Contents(), leases.Contents(), a)
      ensures ending == Some(Escaped) ==> EscapedAt(w, Contents(), leases.Contents(), a, outage)
    {
      var cancelled := Await(heart, w, a);
      if cancelled {
        return Some(Cancelled);
      }
      if outage.AtRecord? {
        return Some(Escaped);
      }
      generations.Save(Protocol.BuildingGeneration(a));
      assert Contents() == Recorded(w, a, leases.Contents());
      cancelled := Await(heart, w, a);
      if cancelled {
        return Some(Cancelled);
      }
      if outage.AtMark? && a.document.activeGeneration.None? {
        return Some(Escaped);
      }
      MarkProcessing(a);
      ending := None;
    }

    /** Claim the job, record the generation, mark the document; None when all that was done. */
    method Prepare(a: Protocol.Attempt, outage: Outage, heart: Heartbeat, ghost w: World)
      returns (ending: Option<Ending>)
      requires Wired() && Beside(heart) && CanAttempt(w, a) && Holding(w, a, heart)
      requires Contents() == w.(leases := leases.Contents())
      modifies documents, jobs, generations, leases`leases, heart.queue`extended
      ensures Holding(w, a, heart)
      ensures ending.None? ==> Contents() == Prepared(w, a, leases.Contents())
      ensures ending == Some(Cancelled) || ending == Some(Escaped) ==>
                PartlyPrepared(w, Contents(), leases.Contents(), a)
      ensures ending == Some(Escaped) ==> EscapedAt(w, Contents(), leases.Contents(), a, outage)
      ensures ending.Some? && ending.value != Cancelled && ending.value != Escaped ==>
                Contents() == w.(leases := leases.Contents()) && Early(ending.value)
      ensures ending.Some? && ending.value.AlreadyDone? ==> HandedOut(w.jobs, a.document.tenant, ending.value.job)
    {
      ending := ClaimJob(a, outage, heart, w);
      if ending.None? {
        ending := RecordAndMark(a, outage, heart, w);
      }
    }

    /** The lease is given back whatever happened inside. */
    method ReleaseLease(a: Protocol.Attempt, lease: Leases.IngestionLease, heart: Heartbeat, ghost w: World)
      requires Holding(w, a, heart)
      requires lease.key == a.document.LeaseOf() && lease.owner == a.command.job && lease.token == a.token
      modifies leases
      ensures ReturnedAs(w.leases, a, heart.Key(), leases.Contents())
    {
      HeldReturns(w.leases, a, heart.Key(), leases.Contents(), lease);
      leases.Release(lease);
    }

    /** What happens between acquire and the end of release. */
    method RunUnderLease(a: Protocol.Attempt, batchSize: nat, extraction: Extraction, clock: Clock, trouble: Trouble,
                         outage: Outage, lease: Leases.IngestionLease, heart: Heartbeat, ghost w: World)
      returns (ending: Ending, ghost inner: Ending, ghost batch: seq<DocumentChunk>,
               ghost answers: seq<(string, seq<Float>)>, ghost records: seq<VectorRecord>)
      requires Wired() && Beside(heart) && 1 <= batchSize <= 256 && CanAttempt(w, a) && Holding(w, a, heart)
      requires lease.key == a.document.LeaseOf() && lease.owner == a.command.job && lease.token == a.token
      requires a.token == Counter(w.leases, a.document.LeaseOf()) + 1
      requires Contents() == w.(leases := leases.Contents())
      modifies documents, jobs, leases, generations, chunks, vectors, embeddings, heart.queue`extended
      ensures Known(Contents())
      ensures AttemptEnded(w, Contents(), a, heart.Key(), extraction, clock, SettingsOf(), trouble, outage, inner,
                           ending, batch, answers, records)
      ensures ending != NotFound && ending != NotReady
      ensures ending.AlreadyDone? ==> HandedOut(w.jobs, a.document.tenant, ending.job)
    {
      ending, batch, answers, records := RunInside(a, batchSize, extraction, clock, trouble, outage, heart, w);
      inner := ending;
      if outage.AtRelease? {
        ending := AfterRelease(ending);
        HoldingSpendsTheToken(w, a, heart.Key(), leases.Contents());
      } else {
        ghost var inside, held := Contents(), leases.Contents();
        ReleaseLease(a, lease, heart, w);
        assert Contents() == inside.(leases := leases.Contents());
        EndedWithOtherLeases(w, inside, held, leases.Contents(), a, clock, SettingsOf(), extraction, trouble, inner,
                             batch, answers, records);
        ReturnedSpendsTheToken(w, a, heart.Key(), leases.Contents());
      }
      EndedIsKnown(w, Contents(), leases.Contents(), a, clock, SettingsOf(), extraction, trouble, inner,
                   batch, answers, records);
    }

    /** Everything under the lease. */
    method RunSteps(a: Protocol.Attempt, batchSize: nat, extraction: Extraction, clock: Clock, trouble: Trouble,
                    outage: Outage, heart: Heartbeat, ghost w: World)
      returns (ending: Ending, ghost batch: seq<DocumentChunk>, ghost answers: seq<(string, seq<Float>)>,
               ghost records: seq<VectorRecord>)
      requires Wired() && Beside(heart) && 1 <= batchSize <= 256 && CanAttempt(w, a) && Holding(w, a, heart)
      requires Contents() == w.(leases := leases.Contents())
      modifies documents, jobs, leases, generations, chunks, vectors, embeddings, heart.queue`extended
      ensures Holding(w, a, heart)
      ensures Ended(w, Contents(), leases.Contents(), a, clock, SettingsOf(), extraction, trouble, ending,
                    batch, answers, records)
      ensures ending == Escaped ==> EscapedAt(w, Contents(), leases.Contents(), a, outage)
      ensures ending.AlreadyDone? ==> HandedOut(w.jobs, a.document.tenant, ending.job)
    {
      batch, answers, records := [], [], [];
      var early := Prepare(a, outage, heart, w);
      if early.Some? {
        ending := early.value;
        EarlyIsEnded(w, a, clock, extraction, trouble, ending, batch, answers, records);
      } else {
        ending, batch, answers, records := BuildOrRecover(a, batchSize, extraction, clock, trouble, heart, w);
      }
    }

    /** Up to the release, where a cancellation may still arrive. */
    method RunInside(a: Protocol.Attempt, batchSize: nat, extraction: Extraction, clock: Clock, trouble: Trouble,
                     outage: Outage, heart: Heartbeat, ghost w: World)
      returns (ending: Ending, ghost batch: seq<DocumentChunk>, ghost answers: seq<(string, seq<Float>)>,
               ghost records: seq<VectorRecord>)
      requires Wired() && Beside(heart) && 1 <= batchSize <= 256 && CanAttempt(w, a) && Holding(w, a, heart)
      requires Contents() == w.(leases := leases.Contents())
      modifies documents, jobs, leases, generations, chunks, vectors, embeddings, heart.queue`extended
      ensures Holding(w, a, heart)
      ensures Ended(w, Contents(), leases.Contents(), a, clock, SettingsOf(), extraction, trouble, ending,
                    batch, answers, records)
      ensures ending == Escaped ==> EscapedAt(w, Contents(), leases.Contents(), a, outage)
      ensures ending.AlreadyDone? ==> HandedOut(w.jobs, a.document.tenant, ending.job)
    {
      ending, batch, answers, records := RunSteps(a, batchSize, extraction, clock, trouble, outage, heart, w);
      ghost var inside, held := Contents(), leases.Contents();
      var cancelled := AwaitEnded(a, extraction, clock, trouble, heart, w, ending, batch, answers, records);
      if cancelled {
        ending := Cancelled;
      } else if ending == Escaped {
        StillEscaped(w, inside, held, leases.Contents(), a, outage);
      }
    }

    lemma StillEscaped(w: World, now: World, leases: Leases.Store, leases': Leases.Store, a: Protocol.Attempt,
                       outage: Outage)
      requires EscapedAt(w, now, leases, a, outage)
      ensures EscapedAt(w, now.(leases := leases'), leases', a, outage)
    {
    }

    lemma EarlyIsEnded(w: World, a: Protocol.Attempt, clock: Clock, extraction: Extraction, trouble: Trouble,
                       ending: Ending, batch: seq<DocumentChunk>, answers: seq<(string, seq<Float>)>,
                       records: seq<VectorRecord>)
      requires Wired()
      requires || ((ending == Cancelled || ending == Escaped) && PartlyPrepared(w, Contents(), leases.Contents(), a))
               || (Contents() == w.(leases := leases.Contents()) && Early(ending))
      ensures Ended(w, Contents(), leases.Contents(), a, clock, SettingsOf(), extraction, trouble, ending,
                    batch, answers, records)
    {
    }

    method AwaitEnded(a: Protocol.Attempt, extraction: Extraction, clock: Clock, trouble: Trouble, heart: Heartbeat,
                      ghost w: World, ending: Ending, ghost batch: seq<DocumentChunk>,
                      ghost answers: seq<(string, seq<Float>)>, ghost records: seq<VectorRecord>)
      returns (cancelled: bool)
      requires Wired() && Beside(heart) && Holding(w, a, heart)
      requires Ended(w, Contents(), leases.Contents(), a, clock, SettingsOf(), extraction, trouble, ending,
                     batch, answers, records)
      modifies leases`leases, heart.queue`extended
      ensures Holding(w, a, heart) && Contents() == old(Contents()).(leases := leases.Contents())
      ensures Ended(w, Contents(), leases.Contents(), a, clock, SettingsOf(), extraction, trouble,
                    if cancelled then Cancelled else ending, batch, answers, records)
    {
      ghost var inside, held := Contents(), leases.Contents();
      cancelled := Await(heart, w, a);
      EndedWithOtherLeases(w, inside, held, leases.Contents(), a, clock, SettingsOf(), extraction, trouble, ending,
                           batch, answers, records);
      if cancelled {
        EndedIsCutShort(w, Contents(), leases.Contents(), a, clock, SettingsOf(), extraction, trouble, ending,
                        batch, answers, records);
      }
    }

    /** The job that already succeeded with the fingerprint of this command, if any. */
    function Previous(command: IngestDocumentCommand, document: Document): Option<Job>
      reads jobs
    {
      var owner := jobs.Owner(MarkerKey(command.ids.tenant, Protocol.FingerprintOf(document, command.ids)));
      if owner.Some? && owner.value.status == JobStatus.Succeeded then owner else None
    }

    /** The end that is certain before the lease is asked for, but for a cancellation. */
    function Foreseen(command: IngestDocumentCommand, outage: Outage): Option<Ending>
      reads documents, jobs
    {
      var key := DocumentKey(command.ids.tenant, command.ids.document);
      if outage.AtLookUp? then Some(Escaped)
      else if key !in documents.documents then Some(NotFound)
      else if !Protocol.Ingestable(documents.documents[key]) then Some(NotReady)
      else if Previous(command, documents.documents[key]).Some?
      then Some(AlreadyDone(Previous(command, documents.documents[key]).value))
      else None
    }

    /** What ingest finds out before it asks for the lease. */
    method LookUp(command: IngestDocumentCommand, outage: Outage) returns (ending: Option<Ending>)
      requires forall k :: DocumentKnown(Contents(), k)
      ensures ending == Foreseen(command, outage)
      ensures var key := DocumentKey(command.ids.tenant, command.ids.document);
              ending.None? ==> key in documents.documents && documents.documents[key].Key() == key
      ensures ending.Some? && ending.value.AlreadyDone? ==> HandedOut(jobs.jobs, command.ids.tenant, ending.value.job)
    {
      if outage.AtLookUp? {
        return Some(Escaped);
      }
      var key := DocumentKey(command.ids.tenant, command.ids.document);
      if key !in documents.documents {
        return Some(NotFound);
      }
      var document := documents.documents[key];
      assert DocumentKnown(Contents(), key);
      if !Protocol.Ingestable(document) {
        return Some(NotReady);
      }
      var existing := jobs.Owner(MarkerKey(command.ids.tenant, Protocol.FingerprintOf(document, command.ids)));
      ending := if existing.Some? && existing.value.status == JobStatus.Succeeded then Some(AlreadyDone(existing.value))
                else None;
    }

    /** Take the lease for an attempt on the document as it is stored. */
    method TakeLease(command: IngestDocumentCommand, document: Document, clock: Clock, heart: Heartbeat, ghost w: World)
      returns (a: Option<Protocol.Attempt>, lease: Leases.IngestionLease)
      requires Known(w) && OnlyRenewed(w, Contents(), heart.Key()) && command.Valid()
      requires document.Key() == DocumentKey(command.ids.tenant, command.ids.document)
      requires document.Key() in w.documents && w.documents[document.Key()] == document
      modifies leases
      ensures a.None? ==> leases.Contents() == old(leases.Contents())
      ensures a.Some? ==>
                && IsAttempt(w, command, clock, a.value) && CanAttempt(w, a.value) && Holding(w, a.value, heart)
                && lease.key == document.LeaseOf() && lease.owner == command.ids.job && lease.token == a.value.token
                && a.value.document == document
    {
      ghost var before := leases.Contents();
      var expiresAt := clock.startedAt + command.leaseTtlSeconds;
      var claim := leases.Acquire(document.LeaseOf(), command.ids.job, Some(command.ids.execution),
                                  expiresAt, clock.startedAt);
      lease := claim.lease;
      if !claim.acquired {
        return None, lease;
      }
      var attempt := Protocol.Attempt(command.ids, document, claim.lease.token, clock.startedAt);
      assert before.tokens == w.leases.tokens;
      FreshCandidate(w, attempt);
      assert leases.Contents() == Held(before, attempt, expiresAt);
      JustHeld(w.leases, before, attempt, heart.Key(), expiresAt);
      a := Some(attempt);
    }

    /** The attempt on a document that may be ingested. */
    method TryOnce(command: IngestDocumentCommand, document: Document, extraction: Extraction, clock: Clock,
                   trouble: Trouble, outage: Outage, heart: Heartbeat, ghost w: World)
      returns (ending: Ending, ghost batch: seq<DocumentChunk>, ghost answers: seq<(string, seq<Float>)>,
               ghost records: seq<VectorRecord>)
      requires Wired() && Beside(heart) && command.Valid() && Known(w) && OnlyRenewed(w, Contents(), heart.Key())
      requires document.Key() == DocumentKey(command.ids.tenant, command.ids.document)
      requires document.Key() in w.documents && w.documents[document.Key()] == document
      modifies documents, jobs, leases, generations, chunks, vectors, embeddings, heart.queue`extended
      ensures Known(Contents()) && ending != NotFound && ending != NotReady
      ensures ending.AlreadyDone? ==> HandedOut(w.jobs, command.ids.tenant, ending.job)
      ensures RunEnded(w, Contents(), heart.Key(), command, extraction, clock, SettingsOf(), trouble, outage, ending,
                       batch, answers, records)
    {
      batch, answers, records := [], [], [];
      var cancelled := AwaitOutside(heart, w);
      RenewalsAreKnown(w, heart);
      if cancelled {
        return Cancelled, batch, answers, records;
      }
      if outage.AtAcquire? {
        return Escaped, batch, answers, records;
      }
      var a, lease := TakeLease(command, document, clock, heart, w);
      if a.None? {
        return InProgress, batch, answers, records;
      }
      ghost var inner;
      ending, inner, batch, answers, records :=
        RunUnderLease(a.value, command.batchSize, extraction, clock, trouble, outage, lease, heart, w);
      assert IsAttempt(w, command, clock, a.value);
    }

    /** Up to the lease. */
    method Begin(command: IngestDocumentCommand, outage: Outage, heart: Heartbeat, ghost w: World)
      returns (early: Option<Ending>)
      requires Beside(heart) && Known(w) && w == Contents() && RenewedAt(w.leases, leases.Contents(), heart.Key())
      modifies leases`leases, heart.queue`extended
      ensures Known(Contents()) && OnlyRenewed(w, Contents(), heart.Key())
      ensures early == Some(Cancelled) || early == Foreseen(command, outage)
      ensures var key := DocumentKey(command.ids.tenant, command.ids.document);
              early.None? ==> key in w.documents && w.documents[key].Key() == key
      ensures early.Some? && early.value.AlreadyDone? ==> HandedOut(w.jobs, command.ids.tenant, early.value.job)
    {
      var cancelled := AwaitOutside(heart, w);
      RenewalsAreKnown(w, heart);
      if cancelled {
        return Some(Cancelled);
      }
      early := LookUp(command, outage);
    }

    /** One run of ingest with nobody else at work. */
    method Ingest(command: IngestDocumentCommand, extraction: Extraction, clock: Clock, trouble: Trouble,
                  outage: Outage, heart: Heartbeat)
      returns (ending: Ending, ghost batch: seq<DocumentChunk>, ghost answers: seq<(string, seq<Float>)>,
               ghost records: seq<VectorRecord>)
      requires Wired() && Beside(heart) && command.Valid() && Known(Contents())
      modifies documents, jobs, leases, generations, chunks, vectors, embeddings, heart.queue`extended
      ensures Known(Contents())
      ensures if old(Foreseen(command, outage)).Some?
              then ending == Cancelled || ending == old(Foreseen(command, outage)).value
              else ending != NotFound && ending != NotReady
      ensures ending.AlreadyDone? ==> HandedOut(old(jobs.jobs), command.ids.tenant, ending.job)
      ensures RunEnded(old(Contents()), Contents(), heart.Key(), command, extraction, clock, SettingsOf(), trouble,
                       outage, ending, batch, answers, records)
    {
      batch, answers, records := [], [], [];
      ghost var w := Contents();
      NotRenewed(w.leases, heart.Key());
      var early := Begin(command, outage, heart, w);
      if early.Some? {
        return early.value, batch, answers, records;
      }
      var document := documents.documents[DocumentKey(command.ids.tenant, command.ids.document)];
      ending, batch, answers, records := TryOnce(command, document, extraction, clock, trouble, outage, heart, w);
    }

    lemma RenewalsAreKnown(w: World, heart: Heartbeat)
      requires Known(w) && OnlyRenewed(w, Contents(), heart.Key())
      ensures Known(Contents())
    {
      forall k ensures DocumentKnown(Contents(), k) {
        assert DocumentKnown(w, k);
      }
      forall k ensures ChunkKnown(Contents(), k) {
        assert ChunkKnown(w, k);
      }
      forall k ensures VectorKnown(Contents(), k) {
        assert VectorKnown(w, k);
      }
    }
  }
}
