/** The records that the ingestion protocol stores and passes around
    (packages/domain/src/ia_domain/models.py).  Identifiers and free text are strings.
    SHA-256 is taken to be injective, so a digest is modelled by what it digests:
    a fingerprint carries the document version it was computed from, and a generation
    id carries the fingerprint, the job and the fencing token. */
module Entities {

  datatype Option<+T> = None | Some(value: T)

  /** A component of a vector: only whether it is finite matters here. */
  datatype Float = Finite(value: real) | NotFinite

  datatype DocumentStatus =
    | PendingUpload | Uploaded | Processing | Indexed | DocumentFailed | Deleting | Deleted

  datatype JobStatus = Pending | Running | Succeeded | Failed

  datatype GenerationStatus = Building | Ready | Active | GenerationFailed | Superseded

  /** The digest of the canonical JSON payload.  metadata and pipeline stand for the payload
      fields that do not identify the document version: those taken from the document and
      those taken from the command, the chunker and the embedding profile. */
  datatype Fingerprint = Fingerprint(
    tenant: string, document: string, sourceVersion: string, metadata: string, pipeline: string)

  /** The digest of fingerprint, job id and fencing token. */
  datatype GenerationId = GenerationId(fingerprint: Fingerprint, job: string, token: nat)

  datatype DocumentKey = DocumentKey(tenant: string, document: string)
  datatype JobKey = JobKey(tenant: string, job: string)
  datatype MarkerKey = MarkerKey(tenant: string, fingerprint: Fingerprint)
  datatype LeaseKey = LeaseKey(tenant: string, document: string, sourceVersion: string)
  datatype GenerationKey = GenerationKey(tenant: string, document: string, generation: GenerationId)

  /** metadata stands for the fields that no protocol step changes (title, roles, ...). */
  datatype Document = Document(
    tenant: string,
    id: string,
    sourceVersion: string,
    metadata: string,
    status: DocumentStatus,
    revision: nat,
    activeGeneration: Option<GenerationId>,
    activeFingerprint: Option<Fingerprint>,
    lastFencingToken: nat,
    updatedAt: int)
  {
    function Key(): DocumentKey { DocumentKey(tenant, id) }
    function LeaseOf(): LeaseKey { LeaseKey(tenant, id, sourceVersion) }
  }

  datatype Job = Job(
    tenant: string,
    id: string,
    document: string,
    sourceVersion: string,
    status: JobStatus,
    chunksCreated: nat,
    vectorsCreated: nat,
    errorCode: Option<string>,
    fingerprint: Option<Fingerprint>,
    generation: Option<GenerationId>,
    modelAlias: Option<string>,
    pipelineVersion: Option<string>,
    fencingToken: Option<nat>,
    startedAt: int,
    completedAt: Option<int>)
  {
    function Key(): JobKey { JobKey(tenant, id) }
    /** A job that went through claim: both fields are set. */
    predicate Fenced() { fingerprint.Some? && fencingToken.Some? }
    function MarkerOf(): MarkerKey requires Fenced() { MarkerKey(tenant, fingerprint.value) }
    function AsMarker(): Marker requires Fenced() { Marker(id, status, fencingToken.value) }
  }

  /** The item that says which job owns a fingerprint. */
  datatype Marker = Marker(job: string, status: JobStatus, token: nat)

  datatype Lease = Lease(owner: string, token: nat, execution: string, expiresAt: int)

  datatype Generation = Generation(
    tenant: string,
    document: string,
    sourceVersion: string,
    id: GenerationId,
    fingerprint: Fingerprint,
    status: GenerationStatus,
    fencingToken: nat,
    chunkCount: nat,
    vectorCount: nat,
    createdAt: int,
    readyAt: Option<int>,
    activatedAt: Option<int>)
  {
    function Key(): GenerationKey { GenerationKey(tenant, document, id) }
    function LeaseOf(): LeaseKey { LeaseKey(tenant, document, sourceVersion) }
    function MarkerOf(): MarkerKey { MarkerKey(tenant, fingerprint) }
  }
}
