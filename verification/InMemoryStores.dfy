/** The in-memory repositories of the sequential tests (index_storage_fakes.py and
    ingestion_coordination_fakes.py).  A put of several records may raise after any of them. */
module InMemoryStores {
  import opened Chunking
  import opened Entities

  datatype VectorRecord = VectorRecord(
    tenant: string, document: string, chunk: string, generation: GenerationId, sourceVersion: string,
    vector: seq<Float>, model: string, dimensions: nat, pipelineVersion: string)

  /** The dictionary key of chunks and vectors. */
  datatype RecordKey = RecordKey(tenant: string, generation: GenerationId, chunk: string)

  function ChunkKey(c: DocumentChunk): RecordKey { RecordKey(c.tenant, c.generation, c.id) }

  function VectorKey(v: VectorRecord): RecordKey { RecordKey(v.tenant, v.generation, v.chunk) }

  function PutChunks(m: map<RecordKey, DocumentChunk>, chunks: seq<DocumentChunk>): map<RecordKey, DocumentChunk> {
    if chunks == [] then m
    else PutChunks(m, chunks[..|chunks| - 1])[ChunkKey(chunks[|chunks| - 1]) := chunks[|chunks| - 1]]
  }

  function PutVectors(m: map<RecordKey, VectorRecord>, records: seq<VectorRecord>): map<RecordKey, VectorRecord> {
    if records == [] then m
    else PutVectors(m, records[..|records| - 1])[VectorKey(records[|records| - 1]) := records[|records| - 1]]
  }

  function WithoutChunks(m: map<RecordKey, DocumentChunk>, tenant: string, document: string, g: GenerationId)
    : map<RecordKey, DocumentChunk> {
    map k | k in m && !(m[k].tenant == tenant && m[k].document == document && m[k].generation == g) :: m[k]
  }

  function WithoutVectors(m: map<RecordKey, VectorRecord>, tenant: string, document: string, g: GenerationId)
    : map<RecordKey, VectorRecord> {
    map k | k in m && !(m[k].tenant == tenant && m[k].document == document && m[k].generation == g) :: m[k]
  }

  class InMemoryChunkStore {
    var chunks: map<RecordKey, DocumentChunk>

    method PutBatch(batch: seq<DocumentChunk>) returns (ok: bool)
      modifies this
      ensures ok ==> chunks == PutChunks(old(chunks), batch)
      ensures !ok ==> exists n :: 0 <= n <= |batch| && chunks == PutChunks(old(chunks), batch[..n])
    {
      var i := 0;
      assert batch[..0] == [];
      while i < |batch|
        invariant 0 <= i <= |batch| && chunks == PutChunks(old(chunks), batch[..i])
      {
        var raises: bool := *;
        if raises {
          return false;
        }
        chunks := chunks[ChunkKey(batch[i]) := batch[i]];
        assert batch[..i + 1][..i] == batch[..i];
        i := i + 1;
      }
      assert batch[..|batch|] == batch;
      ok := true;
    }

    method DeleteGeneration(tenant: string, document: string, g: GenerationId)
      modifies this
      ensures chunks == WithoutChunks(old(chunks), tenant, document, g)
    {
      var keys := set k | k in chunks && chunks[k].tenant == tenant
                      && chunks[k].document == document && chunks[k].generation == g;
      chunks := chunks - keys;
    }
  }

  class InMemoryVectorRepository {
    var records: map<RecordKey, VectorRecord>

    method Upsert(batch: seq<VectorRecord>) returns (ok: bool)
      modifies this
      ensures ok ==> records == PutVectors(old(records), batch)
      ensures !ok ==> exists n :: 0 <= n <= |batch| && records == PutVectors(old(records), batch[..n])
    {
      var i := 0;
      assert batch[..0] == [];
      while i < |batch|
        invariant 0 <= i <= |batch| && records == PutVectors(old(records), batch[..i])
      {
        var raises: bool := *;
        if raises {
          return false;
        }
        records := records[VectorKey(batch[i]) := batch[i]];
        assert batch[..i + 1][..i] == batch[..i];
        i := i + 1;
      }
      assert batch[..|batch|] == batch;
      ok := true;
    }

    method DeleteGeneration(tenant: string, document: string, g: GenerationId)
      modifies this
      ensures records == WithoutVectors(old(records), tenant, document, g)
    {
      var keys := set k | k in records && records[k].tenant == tenant
                      && records[k].document == document && records[k].generation == g;
      records := records - keys;
    }
  }

  datatype Saved = Saved(document: Document) | Rejected

  class InMemoryDocumentRepository {
    var documents: map<DocumentKey, Document>

    /** Compare-and-swap: a saved document is one revision newer than the one it replaces. */
    method Save(document: Document, expectedRevision: Option<nat>) returns (r: Saved)
      modifies this
      ensures var key := document.Key();
              var current := if key in old(documents) then Some(old(documents)[key]) else None;
              if expectedRevision.Some? && (current.None? || current.value.revision != expectedRevision.value)
              then r == Rejected && documents == old(documents)
              else
                && r.Saved?
                && r.document == (if current.None? then document else document.(revision := current.value.revision + 1))
                && documents == old(documents)[key := r.document]
    {
      var key := document.Key();
      if key !in documents {
        if expectedRevision.Some? {
          return Rejected;
        }
        documents := documents[key := document];
        return Saved(document);
      }
      var current := documents[key];
      if expectedRevision.Some? && current.revision != expectedRevision.value {
        return Rejected;
      }
      var stored := document.(revision := current.revision + 1);
      documents := documents[key := stored];
      r := Saved(stored);
    }
  }

  class InMemoryIndexGenerationRepository {
    var generations: map<GenerationKey, Generation>

    method Save(generation: Generation)
      modifies this
      ensures generations == old(generations)[generation.Key() := generation]
    {
      generations := generations[generation.Key() := generation];
    }
  }

  datatype JobClaim = JobClaim(job: Job, acquired: bool) | ClaimConflict

  class InMemoryIngestionJobRepository {
    var jobs: map<JobKey, Job>
    var fingerprints: map<MarkerKey, string>

    function Owner(key: MarkerKey): Option<Job>
      reads this
    {
      if key in fingerprints && JobKey(key.tenant, fingerprints[key]) in jobs
      then Some(jobs[JobKey(key.tenant, fingerprints[key])]) else None
    }

    method Store(job: Job)
      modifies this
      ensures jobs == old(jobs)[job.Key() := job]
      ensures fingerprints == if job.fingerprint.Some?
              then old(fingerprints)[MarkerKey(job.tenant, job.fingerprint.value) := job.id]
                              else old(fingerprints)
    {
      jobs := jobs[job.Key() := job];
      if job.fingerprint.Some? {
        fingerprints := fingerprints[MarkerKey(job.tenant, job.fingerprint.value) := job.id];
      }
    }

    /** A fenced job may not overwrite another owner of its fingerprint, nor undo a success. */
    predicate Stale(job: Job)
      reads this
    {
      && job.Fenced()
      && var owner := Owner(job.MarkerOf());
         owner.Some? && (|| owner.value.id != job.id
                         || owner.value.fencingToken != job.fencingToken
                         || (owner.value.status == Succeeded && job.status != Succeeded))
    }

    method Save(job: Job) returns (ok: bool)
      modifies this
      ensures ok <==> !old(Stale(job))
      ensures !ok ==> jobs == old(jobs) && fingerprints == old(fingerprints)
      ensures ok ==> jobs == old(jobs)[job.Key() := job]
      ensures ok ==> fingerprints == if job.fingerprint.Some?
              then old(fingerprints)[MarkerKey(job.tenant, job.fingerprint.value) := job.id]
                                     else old(fingerprints)
    {
      if Stale(job) {
        return false;
      }
      Store(job);
      ok := true;
    }

    /** The fingerprint goes to a newer token, or to anyone once it failed. */
    method Claim(job: Job) returns (claim: JobClaim)
      requires job.Fenced()
      modifies this
      ensures claim.JobClaim? && claim.acquired ==> claim.job == job
      ensures claim.JobClaim? && claim.acquired ==>
                && jobs == old(jobs)[job.Key() := job]
                && fingerprints == old(fingerprints)[job.MarkerOf() := job.id]
      ensures claim.ClaimConflict? || !claim.acquired ==> jobs == old(jobs) && fingerprints == old(fingerprints)
      ensures claim.ClaimConflict? <==>
                && job.Key() in old(jobs) && old(jobs)[job.Key()].status == Pending
                && (old(jobs)[job.Key()].document != job.document
                    || old(jobs)[job.Key()].sourceVersion != job.sourceVersion)
      ensures claim.JobClaim? && !claim.acquired ==>
                && old(Owner(job.MarkerOf())) == Some(claim.job)
                && (claim.job.status == Succeeded
                    || (claim.job.status == Running && claim.job.fencingToken.Some?
                        && claim.job.fencingToken.value >= job.fencingToken.value))
      ensures claim.JobClaim? && claim.acquired && old(Owner(job.MarkerOf())).Some? ==>
                && old(Owner(job.MarkerOf())).value.status != Succeeded
                && (old(Owner(job.MarkerOf())).value.status == Running
                    && old(Owner(job.MarkerOf())).value.fencingToken.Some? ==>
                      old(Owner(job.MarkerOf())).value.fencingToken.value < job.fencingToken.value)
    {
      if job.Key() in jobs {
        var current := jobs[job.Key()];
        if current.status == Pending
          && (current.document != job.document || current.sourceVersion != job.sourceVersion) {
          return ClaimConflict;
        }
      }
      var existing := Owner(job.MarkerOf());
      if existing.Some? && existing.value.status == Succeeded {
        return JobClaim(existing.value, false);
      }
      if && existing.Some? && existing.value.status == Running && existing.value.fencingToken.Some?
         && existing.value.fencingToken.value >= job.fencingToken.value {
        return JobClaim(existing.value, false);
      }
      Store(job);
      claim := JobClaim(job, true);
    }
  }

  datatype Activation = Activated(document: Document) | Refused | HalfDone

  /** The checks that activate makes before it writes. */
  predicate Acceptable(documents: map<DocumentKey, Document>, g: Generation, job: Job, expectedRevision: nat) {
    var key := DocumentKey(g.tenant, g.document);
    && key in documents
    && documents[key].revision == expectedRevision
    && documents[key].sourceVersion == g.sourceVersion
    && g.status == Ready
    && g.fencingToken > documents[key].lastFencingToken
    && job.generation == Some(g.id)
    && job.fingerprint == Some(g.fingerprint)
    && job.status == Succeeded
  }

  function PointingTo(d: Document, g: Generation, at: int): Document {
    d.(activeGeneration := Some(g.id), activeFingerprint := Some(g.fingerprint), lastFencingToken := g.fencingToken,
       status := Indexed, updatedAt := at)
  }

  /** Three saves, one after the other: unlike the transaction of the control table, a stale
      job is noticed only when the other two are done. */
  class InMemoryIndexActivationRepository {
    const documents: InMemoryDocumentRepository
    const generations: InMemoryIndexGenerationRepository
    const jobs: InMemoryIngestionJobRepository

    constructor (documents: InMemoryDocumentRepository, generations: InMemoryIndexGenerationRepository,
                 jobs: InMemoryIngestionJobRepository)
      ensures this.documents == documents && this.generations == generations && this.jobs == jobs
    {
      this.documents, this.generations, this.jobs := documents, generations, jobs;
    }

    method Activate(g: Generation, job: Job, expectedRevision: nat, at: int) returns (r: Activation)
      requires forall k :: k in documents.documents ==> documents.documents[k].Key() == k
      modifies documents, generations, jobs
      ensures r.Refused? <==> !Acceptable(old(documents.documents), g, job, expectedRevision)
      ensures r.Refused? ==>
                && documents.documents == old(documents.documents)
                && generations.generations == old(generations.generations)
                && jobs.jobs == old(jobs.jobs) && jobs.fingerprints == old(jobs.fingerprints)
      ensures !r.Refused? ==>
                var key := DocumentKey(g.tenant, g.document);
                var stored := PointingTo(old(documents.documents)[key], g, at).(revision := expectedRevision + 1);
                && (r.Activated? ==> r.document == stored)
                && documents.documents == old(documents.documents)[key := stored]
                && generations.generations
                   == old(generations.generations)[g.Key() := g.(status := Active, activatedAt := Some(at))]
      ensures r.HalfDone? <==> !r.Refused? && old(jobs.Stale(job))
      ensures r.HalfDone? ==> jobs.jobs == old(jobs.jobs) && jobs.fingerprints == old(jobs.fingerprints)
      ensures r.Activated? ==>
                && jobs.jobs == old(jobs.jobs)[job.Key() := job]
                && jobs.fingerprints == old(jobs.fingerprints)[MarkerKey(job.tenant, g.fingerprint) := job.id]
    {
      var key := DocumentKey(g.tenant, g.document);
      if key !in documents.documents {
        return Refused;
      }
      var document := documents.documents[key];
      if || document.revision != expectedRevision || document.sourceVersion != g.sourceVersion || g.status != Ready
         || g.fencingToken <= document.lastFencingToken || job.generation != Some(g.id)
         || job.fingerprint != Some(g.fingerprint) || job.status != Succeeded {
        return Refused;
      }
      var saved := documents.Save(PointingTo(document, g, at), Some(expectedRevision));
      generations.Save(g.(status := Active, activatedAt := Some(at)));
      var ok := jobs.Save(job);
      r := if ok then Activated(saved.document) else HalfDone;
    }
  }
}
