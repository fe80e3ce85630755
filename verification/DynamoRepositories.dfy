/** The DynamoDB repositories as objects over one control table.  Other clients write
    between any two calls a repository makes: the tables named atWrite, atReread, ... are
    what the corresponding call meets, and a quiet table is the special case where each
    equals the one before. */
module DynamoRepositories {
  import opened Entities
  import opened ControlTable
  import opened JobCoherence

  datatype Error = ValueError | Conflict | MissingJob | Unanswered

  datatype Result<+T> = Ok(value: T) | Err(error: Error)

  datatype LeaseClaim = LeaseClaim(lease: Lease, acquired: bool)

  datatype JobClaim = JobClaim(job: Job, acquired: bool)

  /** What the client learns of a transaction: the answer, or an error that says nothing,
      raised with the transaction executed or not. */
  datatype Delivery = Answered | LostAfterExecution | LostBeforeExecution

  class DynamoControlTable {
    var table: Table

    constructor ()
      ensures table == EMPTY_TABLE
    {
      table := EMPTY_TABLE;
    }

    /** The other clients' writes up to the next call. */
    method Elapse(t: Table)
      modifies this
      ensures table == t
    {
      table := t;
    }
  }

  // ---------------------------------------------------------------- leases

  function GrantedLease(t: Table, key: LeaseKey, owner: string, requested: Option<string>, expiresAt: int): Lease {
    Lease(owner, TokenAfterItem(t, key),
          if requested.Some? && requested.value != "" then requested.value else owner, expiresAt)
  }

  class DynamoDocumentIngestionLeaseRepository {
    const control: DynamoControlTable

    constructor (control: DynamoControlTable)
      ensures this.control == control
    {
      this.control := control;
    }

    /** Linearizable: a claim is granted on the table that its conditional write meets, and
        nothing but the lease item changes. */
    method Acquire(key: LeaseKey, owner: string, requested: Option<string>, expiresAt: int, now: int,
                   atWrite: Table, atReread: Table)
      returns (r: Result<LeaseClaim>)
      modifies control
      ensures r == Err(ValueError) <==> expiresAt <= now
      ensures r.Err? ==> r.error == ValueError || r.error == Conflict
      ensures r.Ok? && r.value.acquired ==>
                && AcquireAllowed(old(control.table), key, now)
                && AcquireAllowed(atWrite, key, now)
                && r.value.lease == GrantedLease(atWrite, key, owner, requested, expiresAt)
                && control.table == atWrite.(leases := atWrite.leases[key := r.value.lease])
      ensures r.Ok? && !r.value.acquired ==>
                || (control.table == old(control.table) && !AcquireAllowed(control.table, key, now))
                || (control.table == atReread && !AcquireAllowed(atWrite, key, now))
      ensures r.Ok? && !r.value.acquired ==> key in control.table.leases && r.value.lease == control.table.leases[key]
      ensures r == Err(Conflict) ==>
                !AcquireAllowed(atWrite, key, now) && control.table == atReread && key !in atReread.leases
      ensures expiresAt > now && AcquireAllowed(old(control.table), key, now) && AcquireAllowed(atWrite, key, now) ==>
                r.Ok? && r.value.acquired
    {
      if expiresAt <= now {
        return Err(ValueError);
      }
      if key in control.table.leases && control.table.leases[key].expiresAt > now {
        return Ok(LeaseClaim(control.table.leases[key], false));
      }
      control.Elapse(atWrite);
      if AcquireAllowed(control.table, key, now) {
        var lease := GrantedLease(control.table, key, owner, requested, expiresAt);
        control.table := control.table.(leases := control.table.leases[key := lease]);
        return Ok(LeaseClaim(lease, true));
      }
      control.Elapse(atReread);
      if key !in control.table.leases {
        return Err(Conflict);
      }
      r := Ok(LeaseClaim(control.table.leases[key], false));
    }

    /** Only the holder's unexpired lease is prolonged, and only its expiry changes. */
    method Renew(key: LeaseKey, owner: string, token: int, execution: string, expiresAt: int, now: int)
      returns (r: Result<bool>)
      modifies control
      ensures r == Err(ValueError) <==> expiresAt <= now || token <= 0 || execution == ""
      ensures r.Err? ==> r.error == ValueError && control.table == old(control.table)
      ensures r.Ok? ==> r.value == RenewAllowed(old(control.table), key, owner, token, execution, now)
      ensures r == Ok(true) ==> control.table == ControlTable.Renew(old(control.table), key, expiresAt)
      ensures r == Ok(false) ==> control.table == old(control.table)
    {
      if expiresAt <= now || token <= 0 || execution == "" {
        return Err(ValueError);
      }
      if !RenewAllowed(control.table, key, owner, token, execution, now) {
        return Ok(false);
      }
      control.table := control.table.(leases :=
        control.table.leases[key := control.table.leases[key].(expiresAt := expiresAt)]);
      r := Ok(true);
    }

    /** A lease that was taken over stays as it is; otherwise the item goes, counter included. */
    method Release(key: LeaseKey, owner: string, token: nat)
      modifies control
      ensures ReleaseAllowed(old(control.table), key, owner, token) ==>
                && control.table == ControlTable.Release(old(control.table), key)
                && TokenAfterItem(control.table, key) == 1
      ensures !ReleaseAllowed(old(control.table), key, owner, token) ==> control.table == old(control.table)
    {
      if ReleaseAllowed(control.table, key, owner, token) {
        control.table := control.table.(leases := control.table.leases - {key});
      }
    }
  }

  // ---------------------------------------------------------------- documents

  function Stored(t: Table, key: DocumentKey): Option<Document> {
    if key in t.documents && t.documents[key].Key() == key then Some(t.documents[key]) else None
  }

  class DynamoDocumentRepository {
    const control: DynamoControlTable

    constructor (control: DynamoControlTable)
      ensures this.control == control
    {
      this.control := control;
    }

    method Get(tenant: string, id: string) returns (r: Option<Document>)
      ensures r == Stored(control.table, DocumentKey(tenant, id))
      ensures r.Some? ==> r.value.tenant == tenant && r.value.id == id
    {
      var key := DocumentKey(tenant, id);
      if key !in control.table.documents {
        return None;
      }
      var document := control.table.documents[key];
      r := if document.tenant != tenant || document.id != id then None else Some(document);
    }

    /** With an expected revision: a compare-and-swap on the table that the write meets. */
    method SaveExpecting(document: Document, expectedRevision: nat, atWrite: Table) returns (r: Result<Document>)
      modifies control
      ensures r.Ok? <==> SaveDocumentAllowed(atWrite, document, expectedRevision)
      ensures r.Ok? ==> r.value == document.(revision := expectedRevision + 1)
                        && control.table == SaveDocument(atWrite, document, expectedRevision)
                        && Stored(control.table, document.Key()) == Some(r.value)
      ensures r.Err? ==> r.error == Conflict && control.table == atWrite
    {
      control.Elapse(atWrite);
      var key := document.Key();
      if key !in control.table.documents || control.table.documents[key].revision != expectedRevision {
        return Err(Conflict);
      }
      var stored := document.(revision := expectedRevision + 1);
      control.table := control.table.(documents := control.table.documents[key := stored]);
      r := Ok(stored);
    }

    /** Without one: create the item, or else swap against whatever revision was read last. */
    method Save(document: Document, atCreate: Table, atReread: Table, atWrite: Table) returns (r: Result<Document>)
      modifies control
      ensures var key := document.Key();
              var creates := Stored(old(control.table), key).None?;
              var current := if creates then Stored(atReread, key) else Stored(old(control.table), key);
              if creates && key !in atCreate.documents then
                r == Ok(document) && control.table == atCreate.(documents := atCreate.documents[key := document])
              else if current.None? then
                r == Err(Conflict) && control.table == atReread
              else if SaveDocumentAllowed(atWrite, document, current.value.revision) then
                && r == Ok(document.(revision := current.value.revision + 1))
                && control.table == SaveDocument(atWrite, document, current.value.revision)
              else
                r == Err(Conflict) && control.table == atWrite
    {
      var current := Get(document.tenant, document.id);
      if current.None? {
        control.Elapse(atCreate);
        if document.Key() !in control.table.documents {
          control.table := control.table.(documents := control.table.documents[document.Key() := document]);
          return Ok(document);
        }
        control.Elapse(atReread);
        current := Get(document.tenant, document.id);
        if current.None? {
          return Err(Conflict);
        }
      }
      r := SaveExpecting(document, current.value.revision, atWrite);
    }
  }

  // ---------------------------------------------------------------- jobs

  function StoredJob(t: Table, key: JobKey): Option<Job> {
    if key in t.jobs && t.jobs[key].Key() == key then Some(t.jobs[key]) else None
  }

  class DynamoIngestionJobRepository {
    const control: DynamoControlTable

    constructor (control: DynamoControlTable)
      ensures this.control == control
    {
      this.control := control;
    }

    method Get(key: JobKey) returns (r: Option<Job>)
      ensures r == StoredJob(control.table, key)
    {
      if key !in control.table.jobs {
        return None;
      }
      var job := control.table.jobs[key];
      r := if job.tenant != key.tenant || job.id != key.job then None else Some(job);
    }

    method FindByFingerprint(key: MarkerKey) returns (r: Result<Option<Job>>)
      ensures match JobCoherence.FindByFingerprint(control.table, key)
              case NoMarker => r == Ok(None)
              case Found(job) => r == Ok(Some(job))
              case Missing => r == Err(MissingJob)
    {
      if key !in control.table.markers {
        return Ok(None);
      }
      var job := Get(JobKey(key.tenant, control.table.markers[key].job));
      r := if job.None? then Err(MissingJob) else Ok(job);
    }

    /** An accepted save leaves exactly this job stored, and a rejected one changes nothing.
        A rejected transaction is forgiven when the very same job is already there. */
    method Save(job: Job, atWrite: Table, atReread: Table) returns (r: Result<()>)
      modifies control
      ensures !job.Fenced() ==> r.Ok? && control.table == atWrite.(jobs := atWrite.jobs[job.Key() := job])
      ensures job.Fenced() && SaveAllowed(atWrite, job) ==> r.Ok? && control.table == PutJob(atWrite, job)
      ensures job.Fenced() && !SaveAllowed(atWrite, job) ==>
                && control.table == atReread
                && (r.Ok? <==> StoredJob(atReread, job.Key()) == Some(job))
      ensures r.Ok? ==> StoredJob(control.table, job.Key()) == Some(job)
      ensures r.Err? ==> r.error == Conflict
      ensures atReread == atWrite ==> (r.Ok? <==> SaveIsRecorded(atWrite, job))
    {
      control.Elapse(atWrite);
      if job.fingerprint.None? || job.fencingToken.None? {
        control.table := control.table.(jobs := control.table.jobs[job.Key() := job]);
        return Ok(());
      }
      if SaveAllowed(control.table, job) {
        control.table := control.table.(jobs := control.table.jobs[job.Key() := job],
                                        markers := control.table.markers[job.MarkerOf() := job.AsMarker()]);
        return Ok(());
      }
      control.Elapse(atReread);
      var current := Get(job.Key());
      r := if current == Some(job) then Ok(()) else Err(Conflict);
    }

    /** One job per id: the first submission is stored, a repeated one for the same document
        version is answered with what is stored, any other is a conflict. */
    method Submit(job: Job, atWrite: Table, atReread: Table) returns (r: Result<JobClaim>)
      modifies control
      ensures r == Err(ValueError) <==> job.status != Pending || job.fingerprint.Some? || job.fencingToken.Some?
      ensures r != Err(ValueError) && SubmitAllowed(atWrite, job) ==>
                r == Ok(JobClaim(job, true)) && control.table == ControlTable.Submit(atWrite, job)
      ensures r != Err(ValueError) && !SubmitAllowed(atWrite, job) ==>
                && control.table == atReread
                && var existing := StoredJob(atReread, job.Key());
                   if && existing.Some?
                      && existing.value.document == job.document
                      && existing.value.sourceVersion == job.sourceVersion
                   then r == Ok(JobClaim(existing.value, false))
                   else r == Err(Conflict)
    {
      if job.status != Pending || job.fingerprint.Some? || job.fencingToken.Some? {
        return Err(ValueError);
      }
      control.Elapse(atWrite);
      if job.Key() !in control.table.jobs {
        control.table := control.table.(jobs := control.table.jobs[job.Key() := job]);
        return Ok(JobClaim(job, true));
      }
      control.Elapse(atReread);
      var existing := Get(job.Key());
      if || existing.None?
         || existing.value.document != job.document
         || existing.value.sourceVersion != job.sourceVersion {
        return Err(Conflict);
      }
      r := Ok(JobClaim(existing.value, false));
    }

    method Claim(job: Job, atWrite: Table, atReread: Table) returns (r: Result<JobClaim>)
      modifies control
      ensures r == Err(ValueError) <==> !job.Fenced()
      ensures job.Fenced() && ClaimAllowed(atWrite, job) ==>
                r == Ok(JobClaim(job, true)) && control.table == PutJob(atWrite, job)
      ensures job.Fenced() && !ClaimAllowed(atWrite, job) ==>
                && control.table == atReread
                && match JobCoherence.FindByFingerprint(atReread, job.MarkerOf())
                   case NoMarker => r == Err(Conflict)
                   case Found(existing) => r == Ok(JobClaim(existing, false))
                   case Missing => r == Err(MissingJob)
      ensures Coherent(atReread) ==> r != Err(MissingJob)
    {
      if job.fingerprint.None? || job.fencingToken.None? {
        return Err(ValueError);
      }
      control.Elapse(atWrite);
      if ClaimAllowed(control.table, job) {
        control.table := control.table.(jobs := control.table.jobs[job.Key() := job],
                                        markers := control.table.markers[job.MarkerOf() := job.AsMarker()]);
        return Ok(JobClaim(job, true));
      }
      control.Elapse(atReread);
      var found := FindByFingerprint(job.MarkerOf());
      assert Coherent(atReread) ==> !JobCoherence.FindByFingerprint(atReread, job.MarkerOf()).Missing? by {
        if Coherent(atReread) { LookupFindsTheOwner(atReread, job.MarkerOf()); }
      }
      if found.Err? {
        return Err(found.error);
      }
      r := if found.value.None? then Err(Conflict) else Ok(JobClaim(found.value.value, false));
    }
  }

  /** The stored job of the same id stands in the way of a claim: it waits for another
      document version, works for another fingerprint, has succeeded, or runs under a token
      that is not older. */
  predicate BlockedByItsJob(t: Table, job: Job)
    requires job.Fenced()
  {
    && job.Key() in t.jobs
    && var current := t.jobs[job.Key()];
    && !(current.status == Pending && current.document == job.document && current.sourceVersion == job.sourceVersion)
    && (|| current.fingerprint != job.fingerprint
        || current.status == Pending
        || current.status == Succeeded
        || (current.status == Running && !Earlier(current.fencingToken, job.fencingToken.value)))
  }

  /** The owner of a fingerprint stands in the way: it is done, or runs under a token that is
      not older. */
  predicate BlockedByItsOwner(owner: Job, job: Job)
    requires job.Fenced()
  {
    || owner.status == Succeeded
    || (&& owner.status == Running && owner.fencingToken.Some?
        && owner.fencingToken.value >= job.fencingToken.value)
  }

  /** What a refused claim is answered, ws being the writes of others before the lookup.  The
      missing-job error cannot occur.  A conflict is reported exactly when there is no marker
      at the lookup; then there was none at the claim either, and it was the stored job of the
      same id that stood in the way.  Otherwise an owner of this very fingerprint is named: if
      the marker stood in the way and nobody wrote in between, an owner that is done or not
      older; and one that was done at the claim is named as done. */
  lemma RefusedClaimNamesTheOwner(t: Table, ws: seq<Write>, job: Job)
    requires Coherent(t) && AllWellFormed(ws) && job.Fenced() && !ClaimAllowed(t, job)
    ensures var answer := JobCoherence.FindByFingerprint(Run(t, ws), job.MarkerOf());
            && !answer.Missing?
            && (answer.NoMarker? <==> job.MarkerOf() !in Run(t, ws).markers)
            && (answer.NoMarker? ==> job.MarkerOf() !in t.markers && BlockedByItsJob(t, job))
            && (answer.Found? ==> answer.job.fingerprint == job.fingerprint && answer.job.tenant == job.tenant)
            && (!ClaimMarkerAllowed(t, job) ==> answer.Found?)
            && (!ClaimMarkerAllowed(t, job) && ws == [] ==> BlockedByItsOwner(answer.job, job))
            && (job.MarkerOf() in t.markers && t.markers[job.MarkerOf()].status == Succeeded ==>
                  answer.Found? && answer.job.status == Succeeded)
  {
    var k := job.MarkerOf();
    RunKeepsCoherence(t, ws);
    LookupFindsTheOwner(Run(t, ws), k);
    if k in t.markers {
      assert MarkerCoherent(t, k) && JobCoherent(t, JobKey(k.tenant, t.markers[k].job));
      assert Run(t, []) == t;
      MarkersStay(t, ws, k);
      if t.markers[k].status == Succeeded {
        SucceededIsAbsorbing(t, ws, k);
      }
    }
  }

  // ---------------------------------------------------------------- activation

  /** The checks of activate up to the moment it sends its transaction. */
  predicate Sendable(t: Table, g: Generation, job: Job) {
    && ActivationValid(g, job)
    && Stored(t, DocumentKey(g.tenant, g.document)).Some?
    && Stored(t, DocumentKey(g.tenant, g.document)).value.sourceVersion == g.sourceVersion
  }

  /** What other clients write before each of the four reads. */
  predicate AreOthers(others: seq<seq<Write>>) {
    |others| == 4 && forall i :: 0 <= i < 4 ==> AllWellFormed(others[i])
  }

  /** The table that a read meets when the reads begin at table t. */
  function TableAtRead(t: Table, others: seq<seq<Write>>, read: nat): Table
    requires AreOthers(others) && read < 4
  {
    Run(if read == 0 then t else TableAtRead(t, others, read - 1), others[read])
  }

  /** All four reads, each at its own moment, show the activation. */
  predicate ReadsShowActivation(t: Table, others: seq<seq<Write>>, g: Generation, job: Job,
                                expectedRevision: nat, at: int)
    requires AreOthers(others)
  {
    forall read :: 0 <= read < 4 ==> ActivationRead(TableAtRead(t, others, read), g, job, expectedRevision, at, read)
  }

  /** The table after the transaction was sent. */
  function Transacted(t: Table, g: Generation, job: Job, expectedRevision: nat, at: int, delivery: Delivery): Table
    requires ActivationValid(g, job)
  {
    if delivery != LostBeforeExecution && ActivationAllowed(t, g, job, expectedRevision, at)
    then ControlTable.Activate(t, g, job, expectedRevision, at)
    else t
  }

  class DynamoIndexActivationRepository {
    const control: DynamoControlTable

    constructor (control: DynamoControlTable)
      ensures this.control == control
    {
      this.control := control;
    }

    /** Four separate reads, and then the comparisons. */
    method ReconcileCommittedActivation(
        g: Generation, job: Job, expectedRevision: nat, at: int, others: seq<seq<Write>>)
      returns (r: Option<Document>)
      requires ActivationValid(g, job) && AreOthers(others)
      modifies control
      ensures control.table == TableAtRead(old(control.table), others, 3)
      ensures r.Some? <==> ReadsShowActivation(old(control.table), others, g, job, expectedRevision, at)
      ensures r.Some? ==>
                r.value == TableAtRead(old(control.table), others, 0).documents[DocumentKey(g.tenant, g.document)]
    {
      ghost var t := control.table;
      var documentKey := DocumentKey(g.tenant, g.document);
      control.Elapse(Run(control.table, others[0]));
      var document :=
        if documentKey in control.table.documents then Some(control.table.documents[documentKey]) else None;
      assert control.table == TableAtRead(t, others, 0);
      control.Elapse(Run(control.table, others[1]));
      var stored := if g.Key() in control.table.generations then Some(control.table.generations[g.Key()]) else None;
      assert control.table == TableAtRead(t, others, 1);
      control.Elapse(Run(control.table, others[2]));
      var storedJob := if job.Key() in control.table.jobs then Some(control.table.jobs[job.Key()]) else None;
      assert control.table == TableAtRead(t, others, 2);
      control.Elapse(Run(control.table, others[3]));
      var marker := if g.MarkerOf() in control.table.markers then Some(control.table.markers[g.MarkerOf()]) else None;
      assert control.table == TableAtRead(t, others, 3);
      if document.None? || stored.None? || storedJob.None? || marker.None? {
        return None;
      }
      r := if && SameDocument(document.value, g, expectedRevision) && SameGeneration(stored.value, g, at)
              && SameJob(storedJob.value, job) && marker.value == Marker(job.id, Succeeded, g.fencingToken)
           then document else None;
    }

    predicate SameDocument(document: Document, g: Generation, expectedRevision: nat) {
      && document.tenant == g.tenant && document.id == g.document && document.sourceVersion == g.sourceVersion
      && document.status == Indexed && document.activeGeneration == Some(g.id)
      && document.activeFingerprint == Some(g.fingerprint) && document.lastFencingToken == g.fencingToken
      && document.revision >= expectedRevision + 1
    }

    predicate SameGeneration(stored: Generation, g: Generation, at: int) {
      && stored.tenant == g.tenant && stored.document == g.document && stored.id == g.id
      && stored.sourceVersion == g.sourceVersion && stored.status == Active && stored.fingerprint == g.fingerprint
      && stored.fencingToken == g.fencingToken && stored.activatedAt == Some(at)
    }

    predicate SameJob(stored: Job, job: Job) {
      && stored.tenant == job.tenant && stored.id == job.id && stored.document == job.document
      && stored.sourceVersion == job.sourceVersion && stored.status == Succeeded
      && stored.generation == job.generation && stored.fingerprint == job.fingerprint
      && stored.fencingToken == job.fencingToken && stored.completedAt == job.completedAt
      && stored.chunksCreated == job.chunksCreated && stored.vectorsCreated == job.vectorsCreated
    }

    /** The transaction takes effect exactly when it was executed and its five conditions
        held; an answered call says which, and a lost answer is decided by the reads. */
    method Activate(g: Generation, job: Job, expectedRevision: nat, at: int, atWrite: Table, delivery: Delivery,
                    others: seq<seq<Write>>)
      returns (r: Result<Document>)
      requires AreOthers(others)
      modifies control
      ensures !Sendable(old(control.table), g, job) ==> r == Err(Conflict) && control.table == old(control.table)
      ensures Sendable(old(control.table), g, job) && delivery == Answered ==>
                && control.table == Transacted(atWrite, g, job, expectedRevision, at, delivery)
                && if ActivationAllowed(atWrite, g, job, expectedRevision, at)
                   then r == Ok(ActivatedDocument(old(control.table.documents[DocumentKey(g.tenant, g.document)]),
                                                  g, expectedRevision, at))
                   else r == Err(Conflict)
      ensures Sendable(old(control.table), g, job) && delivery != Answered ==>
                var sent := Transacted(atWrite, g, job, expectedRevision, at, delivery);
                && control.table == TableAtRead(sent, others, 3)
                && if ReadsShowActivation(sent, others, g, job, expectedRevision, at)
                   then r == Ok(TableAtRead(sent, others, 0).documents[DocumentKey(g.tenant, g.document)])
                   else r == Err(Unanswered)
      ensures Sendable(old(control.table), g, job) && delivery == LostBeforeExecution ==>
                (&& ActivationAllowed(atWrite, g, job, expectedRevision, at)
                 && TableAtRead(atWrite, others, 2).jobs == atWrite.jobs) ==>
                  r == Err(Unanswered)
    {
      if !ActivationValid(g, job) {
        return Err(Conflict);
      }
      var documentKey := DocumentKey(g.tenant, g.document);
      if documentKey !in control.table.documents {
        return Err(Conflict);
      }
      var current := control.table.documents[documentKey];
      if current.tenant != g.tenant || current.id != g.document || current.sourceVersion != g.sourceVersion {
        return Err(Conflict);
      }
      var activated := ActivatedDocument(current, g, expectedRevision, at);
      control.Elapse(atWrite);
      var executed := delivery != LostBeforeExecution && ActivationAllowed(control.table, g, job, expectedRevision, at);
      if executed {
        Execute(g, job, expectedRevision, at);
      }
      if delivery == Answered {
        return if executed then Ok(activated) else Err(Conflict);
      }
      var reconciled := ReconcileCommittedActivation(g, job, expectedRevision, at, others);
      NotExecutedIsNotShown(atWrite, others, g, job, expectedRevision, at);
      r := if reconciled.Some? then Ok(reconciled.value) else Err(Unanswered);
    }

    /** The four updates of the transaction; the fifth item is only checked. */
    method Execute(g: Generation, job: Job, expectedRevision: nat, at: int)
      requires ActivationValid(g, job) && ActivationAllowed(control.table, g, job, expectedRevision, at)
      modifies control
      ensures control.table == ControlTable.Activate(old(control.table), g, job, expectedRevision, at)
    {
      var t := control.table;
      var documentKey := DocumentKey(g.tenant, g.document);
      var document := t.documents[documentKey].(
        activeGeneration := Some(g.id), activeFingerprint := Some(g.fingerprint), lastFencingToken := g.fencingToken,
        status := Indexed, updatedAt := at, revision := expectedRevision + 1);
      var generation := t.generations[g.Key()].(status := Active, activatedAt := Some(at));
      var stored := t.jobs[job.Key()].(
        status := Succeeded, chunksCreated := job.chunksCreated, vectorsCreated := job.vectorsCreated,
        completedAt := job.completedAt, errorCode := None);
      var marker := t.markers[g.MarkerOf()].(status := Succeeded);
      control.table := Table(t.documents[documentKey := document], t.jobs[job.Key() := stored],
                             t.markers[g.MarkerOf() := marker], t.leases, t.generations[g.Key() := generation]);
    }
  }

  /** A transaction that could commit and was not executed leaves its job running. */
  lemma NotExecutedIsNotShown(
      t: Table, others: seq<seq<Write>>, g: Generation, job: Job, expectedRevision: nat, at: int)
    requires ActivationValid(g, job) && AreOthers(others)
    ensures ActivationAllowed(t, g, job, expectedRevision, at) && TableAtRead(t, others, 2).jobs == t.jobs ==>
              !ReadsShowActivation(t, others, g, job, expectedRevision, at)
  {
    if ActivationAllowed(t, g, job, expectedRevision, at) && TableAtRead(t, others, 2).jobs == t.jobs {
      assert !ActivationRead(TableAtRead(t, others, 2), g, job, expectedRevision, at, 2);
    }
  }

  /** Where items sit under their own keys. */
  predicate Filed(t: Table, g: Generation, job: Job) {
    var documentKey := DocumentKey(g.tenant, g.document);
    && (documentKey in t.documents ==> t.documents[documentKey].Key() == documentKey)
    && (g.Key() in t.generations ==> t.generations[g.Key()].Key() == g.Key())
    && (job.Key() in t.jobs ==> t.jobs[job.Key()].Key() == job.Key())
  }

  /** Right after the transaction the reads find it, exactly when the stored job and
      generation name the document version: the two fields that no condition compares. */
  lemma CommittedActivationIsFound(t: Table, g: Generation, job: Job, expectedRevision: nat, at: int)
    requires ActivationValid(g, job) && ActivationAllowed(t, g, job, expectedRevision, at) && Filed(t, g, job)
    ensures Activated(Activate(t, g, job, expectedRevision, at), g, job, expectedRevision, at)
            <==> && t.jobs[job.Key()].document == job.document
                 && t.jobs[job.Key()].sourceVersion == job.sourceVersion
                 && t.generations[g.Key()].sourceVersion == g.sourceVersion
  {
    var t' := Activate(t, g, job, expectedRevision, at);
    var documentKey := DocumentKey(g.tenant, g.document);
    assert t'.documents[documentKey] == ActivatedDocument(t.documents[documentKey], g, expectedRevision, at);
    assert t'.jobs[job.Key()] == ActivatedJob(t.jobs[job.Key()], job);
    assert t'.markers[g.MarkerOf()] == Marker(job.id, Succeeded, g.fencingToken);
  }
}
