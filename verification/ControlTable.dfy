/** The control table and its conditional writes.  Every function here is the effect of one
    conditional write or one transaction, which DynamoDB executes atomically, and the
    predicate beside it is that write's condition expression. */
module ControlTable {
  import opened Entities

  datatype Table = Table(
    documents: map<DocumentKey, Document>,
    jobs: map<JobKey, Job>,
    markers: map<MarkerKey, Marker>,
    leases: map<LeaseKey, Lease>,
    generations: map<GenerationKey, Generation>)

  const EMPTY_TABLE := Table(map[], map[], map[], map[], map[])

  // ---------------------------------------------------------------- jobs and markers

  predicate SubmitAllowed(t: Table, job: Job) {
    job.Key() !in t.jobs
  }

  function Submit(t: Table, job: Job): Table {
    t.(jobs := t.jobs[job.Key() := job])
  }

  /** The condition of the job put in claim. */
  predicate ClaimJobAllowed(t: Table, job: Job)
    requires job.Fenced()
  {
    job.Key() in t.jobs ==>
      var current := t.jobs[job.Key()];
      || (current.status == Pending && current.document == job.document && current.sourceVersion == job.sourceVersion)
      || (&& current.fingerprint == job.fingerprint
          && (|| current.status == Failed
              || (current.status == Running && Earlier(current.fencingToken, job.fencingToken.value))))
  }

  /** fencingToken < :fencing, which is false for an item without the attribute. */
  predicate Earlier(stored: Option<nat>, token: nat) {
    stored.Some? && stored.value < token
  }

  /** The condition of the marker put in claim. */
  predicate ClaimMarkerAllowed(t: Table, job: Job)
    requires job.Fenced()
  {
    job.MarkerOf() in t.markers ==>
      var marker := t.markers[job.MarkerOf()];
      marker.status == Failed || (marker.status == Running && marker.token < job.fencingToken.value)
  }

  predicate ClaimAllowed(t: Table, job: Job)
    requires job.Fenced()
  {
    ClaimJobAllowed(t, job) && ClaimMarkerAllowed(t, job)
  }

  /** The effect of claim and of a fenced save: both items are replaced. */
  function PutJob(t: Table, job: Job): Table
    requires job.Fenced()
  {
    t.(jobs := t.jobs[job.Key() := job], markers := t.markers[job.MarkerOf() := job.AsMarker()])
  }

  /** The conditions of the two puts in a fenced save. */
  predicate SaveAllowed(t: Table, job: Job)
    requires job.Fenced()
  {
    && (job.Key() in t.jobs ==>
          var current := t.jobs[job.Key()];
          && current.fingerprint == job.fingerprint
          && current.fencingToken == job.fencingToken
          && (current.status == Running || current.status == job.status))
    && (job.MarkerOf() in t.markers ==>
          var marker := t.markers[job.MarkerOf()];
          && marker.job == job.id
          && marker.token == job.fencingToken.value
          && (marker.status == Running || marker.status == job.status))
  }

  /** A save that nobody disturbs leaves the job stored: it is unconditional, or its
      conditions hold, or the very same job is stored already. */
  predicate SaveIsRecorded(t: Table, job: Job) {
    || !job.Fenced()
    || SaveAllowed(t, job)
    || (job.Key() in t.jobs && t.jobs[job.Key()] == job)
  }

  // ---------------------------------------------------------------- activation

  /** The checks made before anything is sent. */
  predicate ActivationValid(generation: Generation, job: Job) {
    && generation.status == Ready
    && job.status == Succeeded
    && job.tenant == generation.tenant
    && job.document == generation.document
    && job.sourceVersion == generation.sourceVersion
    && job.generation == Some(generation.id)
    && job.fingerprint == Some(generation.fingerprint)
    && job.fencingToken == Some(generation.fencingToken)
    && job.completedAt.Some?
  }

  predicate LeaseHeld(t: Table, key: LeaseKey, owner: string, token: nat, at: int) {
    && key in t.leases
    && t.leases[key].owner == owner
    && t.leases[key].token == token
    && t.leases[key].expiresAt > at
  }

  /** The conditions of the five items of the activation transaction. */
  predicate ActivationAllowed(t: Table, generation: Generation, job: Job, expectedRevision: nat, at: int)
    requires ActivationValid(generation, job)
  {
    var documentKey := DocumentKey(generation.tenant, generation.document);
    && LeaseHeld(t, generation.LeaseOf(), job.id, generation.fencingToken, at)
    && documentKey in t.documents
    && t.documents[documentKey].revision == expectedRevision
    && t.documents[documentKey].sourceVersion == generation.sourceVersion
    && t.documents[documentKey].lastFencingToken < generation.fencingToken
    && generation.Key() in t.generations
    && t.generations[generation.Key()].status == Ready
    && t.generations[generation.Key()].fingerprint == generation.fingerprint
    && t.generations[generation.Key()].fencingToken == generation.fencingToken
    && job.Key() in t.jobs
    && t.jobs[job.Key()].status == Running
    && t.jobs[job.Key()].generation == Some(generation.id)
    && t.jobs[job.Key()].fingerprint == Some(generation.fingerprint)
    && t.jobs[job.Key()].fencingToken == Some(generation.fencingToken)
    && generation.MarkerOf() in t.markers
    && t.markers[generation.MarkerOf()].job == job.id
    && t.markers[generation.MarkerOf()].token == generation.fencingToken
  }

  function ActivatedDocument(document: Document, generation: Generation, expectedRevision: nat, at: int): Document {
    document.(activeGeneration := Some(generation.id),
              activeFingerprint := Some(generation.fingerprint),
              lastFencingToken := generation.fencingToken,
              status := Indexed,
              updatedAt := at,
              revision := expectedRevision + 1)
  }

  function ActivatedJob(stored: Job, job: Job): Job {
    stored.(status := Succeeded,
            chunksCreated := job.chunksCreated,
            vectorsCreated := job.vectorsCreated,
            completedAt := job.completedAt,
            errorCode := None)
  }

  function Activate(t: Table, generation: Generation, job: Job, expectedRevision: nat, at: int): Table
    requires ActivationValid(generation, job)
    requires ActivationAllowed(t, generation, job, expectedRevision, at)
  {
    var documentKey := DocumentKey(generation.tenant, generation.document);
    var markerKey := generation.MarkerOf();
    t.(documents := t.documents[documentKey :=
        ActivatedDocument(t.documents[documentKey], generation, expectedRevision, at)],
       generations := t.generations[generation.Key() :=
         t.generations[generation.Key()].(status := Active, activatedAt := Some(at))],
       jobs := t.jobs[job.Key() := ActivatedJob(t.jobs[job.Key()], job)],
       markers := t.markers[markerKey := t.markers[markerKey].(status := Succeeded)])
  }

  /** The four reads after a lost answer, in the order of the source: do they show the
      transaction's effect?  An item counts only under its own identity. */
  predicate ActivationRead(t: Table, g: Generation, job: Job, expectedRevision: nat, at: int, read: nat) {
    match read
    case 0 => DocumentActivated(t, g, expectedRevision)
    case 1 => GenerationActivated(t, g, at)
    case 2 => JobSucceeded(t, job)
    case _ => g.MarkerOf() in t.markers && t.markers[g.MarkerOf()] == Marker(job.id, Succeeded, g.fencingToken)
  }

  predicate DocumentActivated(t: Table, g: Generation, expectedRevision: nat) {
    var key := DocumentKey(g.tenant, g.document);
    && key in t.documents
    && t.documents[key].Key() == key
    && t.documents[key].sourceVersion == g.sourceVersion
    && t.documents[key].status == Indexed
    && t.documents[key].activeGeneration == Some(g.id)
    && t.documents[key].activeFingerprint == Some(g.fingerprint)
    && t.documents[key].lastFencingToken == g.fencingToken
    && t.documents[key].revision >= expectedRevision + 1
  }

  predicate GenerationActivated(t: Table, g: Generation, at: int) {
    && g.Key() in t.generations
    && t.generations[g.Key()].Key() == g.Key()
    && t.generations[g.Key()].sourceVersion == g.sourceVersion
    && t.generations[g.Key()].status == Active
    && t.generations[g.Key()].fingerprint == g.fingerprint
    && t.generations[g.Key()].fencingToken == g.fencingToken
    && t.generations[g.Key()].activatedAt == Some(at)
  }

  predicate JobSucceeded(t: Table, job: Job) {
    && job.Key() in t.jobs
    && t.jobs[job.Key()].Key() == job.Key()
    && t.jobs[job.Key()].document == job.document
    && t.jobs[job.Key()].sourceVersion == job.sourceVersion
    && t.jobs[job.Key()].status == Succeeded
    && t.jobs[job.Key()].generation == job.generation
    && t.jobs[job.Key()].fingerprint == job.fingerprint
    && t.jobs[job.Key()].fencingToken == job.fencingToken
    && t.jobs[job.Key()].completedAt == job.completedAt
    && t.jobs[job.Key()].chunksCreated == job.chunksCreated
    && t.jobs[job.Key()].vectorsCreated == job.vectorsCreated
  }

  /** All four of them do. */
  predicate Activated(t: Table, g: Generation, job: Job, expectedRevision: nat, at: int) {
    && ActivationRead(t, g, job, expectedRevision, at, 0)
    && ActivationRead(t, g, job, expectedRevision, at, 1)
    && ActivationRead(t, g, job, expectedRevision, at, 2)
    && ActivationRead(t, g, job, expectedRevision, at, 3)
  }

  // ---------------------------------------------------------------- documents

  /** The compare-and-swap of a save with an expected revision. */
  predicate SaveDocumentAllowed(t: Table, document: Document, expectedRevision: nat) {
    document.Key() in t.documents && t.documents[document.Key()].revision == expectedRevision
  }

  function SaveDocument(t: Table, document: Document, expectedRevision: nat): Table {
    t.(documents := t.documents[document.Key() := document.(revision := expectedRevision + 1)])
  }

  // ---------------------------------------------------------------- generations and leases

  function PutGeneration(t: Table, generation: Generation): Table {
    t.(generations := t.generations[generation.Key() := generation])
  }

  predicate AcquireAllowed(t: Table, key: LeaseKey, now: int) {
    key in t.leases ==> t.leases[key].expiresAt <= now
  }

  /** if_not_exists(fencingToken, 0) + 1 on the stored lease item. */
  function TokenAfterItem(t: Table, key: LeaseKey): nat {
    if key in t.leases then t.leases[key].token + 1 else 1
  }

  predicate RenewAllowed(t: Table, key: LeaseKey, owner: string, token: nat, execution: string, now: int) {
    LeaseHeld(t, key, owner, token, now) && t.leases[key].execution == execution
  }

  function Renew(t: Table, key: LeaseKey, expiresAt: int): Table
    requires key in t.leases
  {
    t.(leases := t.leases[key := t.leases[key].(expiresAt := expiresAt)])
  }

  predicate ReleaseAllowed(t: Table, key: LeaseKey, owner: string, token: nat) {
    key in t.leases && t.leases[key].owner == owner && t.leases[key].token == token
  }

  function Release(t: Table, key: LeaseKey): Table {
    t.(leases := t.leases - {key})
  }
}
