/** The invariant of the publication protocol.  It speaks about one worker at a time; what
    one worker may do to the others is captured by the relation Guarantee, so that a step
    is checked against its own worker only.

    Invariant and guarantee are families of facts about single keys; a proof names the
    instances that it uses. */
module ProtocolInvariant {
  import opened Entities
  import opened ControlTable
  import opened JobCoherence
  import opened Protocol

  /** Worker w is the one whose attempt builds generation g. */
  predicate OwnedBy(sh: Shared, g: GenerationId, w: nat) {
    g in sh.attempts && sh.attempts[g] == w
  }

  /** A published generation that a newer one has replaced. */
  predicate Replaced(sh: Shared, g: GenerationId) {
    && g in sh.published
    && DocumentKeyOf(g) in sh.table.documents
    && sh.table.documents[DocumentKeyOf(g)].lastFencingToken > g.token
  }

  /** All chunks and all vectors that the generation record counts are stored. */
  predicate Complete(sh: Shared, g: GenerationId) {
    && GenerationKeyOf(g) in sh.table.generations
    && var stored := sh.table.generations[GenerationKeyOf(g)];
    && stored.status == Active
    && stored.chunkCount == stored.vectorCount > 0
    && AllStored(sh.chunks, g, stored.chunkCount)
    && AllStored(sh.vectors, g, stored.vectorCount)
  }

  predicate WellFormedDocument(d: Document) {
    && (d.status == Indexed <==> d.activeGeneration.Some?)
    && (d.activeGeneration.None? ==> d.activeFingerprint.None?)
    && (d.activeGeneration.Some? ==>
          && var g := d.activeGeneration.value;
          && g.token == d.lastFencingToken
          && LeaseKeyOf(g) == d.LeaseOf()
          && d.activeFingerprint == Some(g.fingerprint))
  }

  predicate DocumentInv(sh: Shared, k: DocumentKey) {
    k in sh.table.documents ==>
      var d := sh.table.documents[k];
      && d.Key() == k
      && WellFormedDocument(d)
      && (d.activeGeneration.Some? ==>
            d.activeGeneration.value in sh.published && Complete(sh, d.activeGeneration.value))
  }

  /** A published generation has the marker of its fingerprint, succeeded for ever. */
  predicate Marked(sh: Shared, g: GenerationId) {
    g in sh.published ==>
      && MarkerKeyOf(g.fingerprint) in sh.table.markers
      && sh.table.markers[MarkerKeyOf(g.fingerprint)] == Marker(g.job, Succeeded, g.token)
  }

  predicate PublishedInv(sh: Shared, g: GenerationId) {
    (g in sh.published ==> g in sh.attempts) && Marked(sh, g)
  }

  /** A stored lease carries the token granted last for its key. */
  predicate LeaseInv(sh: Shared, k: LeaseKey) {
    k in sh.table.leases ==> k in sh.latest && sh.table.leases[k].token == sh.latest[k]
  }

  /** A running job describes the document version of its generation. */
  predicate RunningJobInv(sh: Shared, k: JobKey) {
    k in sh.table.jobs && sh.table.jobs[k].status == Running ==>
      var job := sh.table.jobs[k];
      && job.generation.Some?
      && job.document == job.generation.value.fingerprint.document
      && job.sourceVersion == job.generation.value.fingerprint.sourceVersion
  }

  ghost predicate SharedInv(sh: Shared) {
    && Coherent(sh.table)
    && (forall k :: RunningJobInv(sh, k))
    && (forall k :: LeaseInv(sh, k))
    && (forall k :: DocumentInv(sh, k))
    && (forall g :: PublishedInv(sh, g))
  }

  /** A document value that was read from the table at some earlier time. */
  predicate ReadEarlier(sh: Shared, d: Document) {
    && WellFormedDocument(d)
    && d.Key() in sh.table.documents
    && var current := sh.table.documents[d.Key()];
    && current.sourceVersion == d.sourceVersion
    && d.revision <= current.revision
    && (d.revision == current.revision ==> d == current)
    && d.lastFencingToken <= current.lastFencingToken
    && (d.activeGeneration.Some? ==> d.activeGeneration.value in sh.published)
  }

  predicate AttemptInv(sh: Shared, w: nat, a: Attempt) {
    ReadEarlier(sh, a.document) && OwnedBy(sh, a.Generation(), w)
  }

  predicate Unpublished(sh: Shared, a: Attempt) {
    a.Generation() !in sh.published
  }

  predicate CandidateStored(sh: Shared, a: Attempt, c: Candidate) {
    var g := a.Generation();
    && c.count > 0
    && AllStored(sh.chunks, g, c.count)
    && AllStored(sh.vectors, g, c.count)
    && GenerationKeyOf(g) in sh.table.generations
    && sh.table.generations[GenerationKeyOf(g)] == ReadyGeneration(a, c.count, c.readyAt)
  }

  /** After the activation of an attempt committed and until something replaces it, all four
      reconciliation reads match. */
  predicate CommittedInv(sh: Shared, a: Attempt, c: Candidate) {
    && a.Generation() in sh.published
    && ReadMatches(sh.table, a, c, 2)
    && ReadMatches(sh.table, a, c, 3)
    && a.document.Key() in sh.table.documents
    && var d := sh.table.documents[a.document.Key()];
    && a.document.lastFencingToken < a.token <= d.lastFencingToken
    && (d.lastFencingToken == a.token ==> ReadMatches(sh.table, a, c, 0) && ReadMatches(sh.table, a, c, 1))
  }

  predicate SupersedingInv(sh: Shared, a: Attempt) {
    && a.Generation() in sh.published
    && a.document.Key() in sh.table.documents
    && a.document.lastFencingToken < a.token <= sh.table.documents[a.document.Key()].lastFencingToken
  }

  /** The objects that a worker knows to be stored. */
  predicate StoredInv(sh: Shared, x: Worker) {
    && (x.Storing? ==>
          && x.count > 0
          && x.chunks <= StoredIn(sh.chunks, x.attempt.Generation())
          && x.vectors <= StoredIn(sh.vectors, x.attempt.Generation()))
    && (x.Readying? ==>
          && x.count > 0
          && AllStored(sh.chunks, x.attempt.Generation(), x.count)
          && AllStored(sh.vectors, x.attempt.Generation(), x.count))
    && (x.Activating? ==> CandidateStored(sh, x.attempt, x.candidate))
  }

  /** May worker w overwrite or delete what is stored for g? */
  predicate Disposable(sh: Shared, w: nat, g: GenerationId) {
    (g !in sh.published && OwnedBy(sh, g, w)) || Replaced(sh, g)
  }

  /** What a worker relies on beyond its attempt, at each program point. */
  predicate PointInv(sh: Shared, w: nat, x: Worker) {
    && (x.Looking? || x.Acquiring? || x.LeasingSubmission? || x.Uploading? ==> ReadEarlier(sh, x.document))
    && (x.Unsettled() ==> Unpublished(sh, x.attempt))
    && StoredInv(sh, x)
    && (x.Reconciling? && x.committed ==> CommittedInv(sh, x.attempt, x.candidate))
    && (x.Reconciling? && !x.committed ==> x.stage == 0)
    && (x.Superseding? ==> SupersedingInv(sh, x.attempt))
    && (!x.Superseding? && Doomed(x).Some? ==> Disposable(sh, w, Doomed(x).value))
    && (x.SavingRestored? ==>
          ReadEarlier(sh, x.current) && x.current.status == Processing && x.current.activeGeneration.None?)
  }

  predicate WorkerInv(sh: Shared, w: nat, x: Worker) {
    (x.Leased() ==> AttemptInv(sh, w, x.attempt)) && PointInv(sh, w, x)
  }

  ghost predicate Inv(s: State) {
    && SharedInv(s.shared)
    && forall w :: w in s.workers ==> WorkerInv(s.shared, w, s.workers[w])
  }

  // ---------------------------------------------------------------- what a step may do

  /** One committed write of a document: the revision grows by one, the fencing token never
      decreases, and the active generation changes only with a larger token. */
  predicate DocumentWritten(d: Document, d': Document) {
    && d'.Key() == d.Key()
    && d'.sourceVersion == d.sourceVersion
    && d'.metadata == d.metadata
    && d'.revision == d.revision + 1
    && d.lastFencingToken <= d'.lastFencingToken
    && (d.lastFencingToken == d'.lastFencingToken ==>
          d'.activeGeneration == d.activeGeneration && d'.activeFingerprint == d.activeFingerprint)
  }

  predicate DocumentKept(sh: Shared, sh': Shared, k: DocumentKey) {
    k in sh.table.documents ==>
      && k in sh'.table.documents
      && (sh'.table.documents[k] == sh.table.documents[k]
          || DocumentWritten(sh.table.documents[k], sh'.table.documents[k]))
  }

  predicate AttemptKept(sh: Shared, sh': Shared, g: GenerationId) {
    g in sh.attempts ==> g in sh'.attempts && sh'.attempts[g] == sh.attempts[g]
  }

  predicate PublicationKept(sh: Shared, sh': Shared, w: nat, g: GenerationId) {
    && (g in sh.published ==> g in sh'.published)
    && (g in sh'.published && g !in sh.published ==> OwnedBy(sh', g, w))
  }

  predicate SameRecord(sh: Shared, sh': Shared, k: GenerationKey) {
    && (k in sh.table.generations <==> k in sh'.table.generations)
    && (k in sh.table.generations ==> sh'.table.generations[k] == sh.table.generations[k])
  }

  predicate SameData(sh: Shared, sh': Shared, g: GenerationId) {
    && StoredIn(sh.chunks, g) <= StoredIn(sh'.chunks, g)
    && StoredIn(sh.vectors, g) <= StoredIn(sh'.vectors, g)
    && SameRecord(sh, sh', GenerationKeyOf(g))
  }

  predicate GenerationKept(sh: Shared, sh': Shared, w: nat, g: GenerationId) {
    g in sh.published || !OwnedBy(sh', g, w) ==> Replaced(sh', g) || SameData(sh, sh', g)
  }

  predicate JobKept(sh: Shared, sh': Shared, k: JobKey) {
    k in sh.table.jobs && sh.table.jobs[k].status == Succeeded ==>
      k in sh'.table.jobs && sh'.table.jobs[k] == sh.table.jobs[k]
  }

  predicate MarkerKept(sh: Shared, sh': Shared, w: nat, k: MarkerKey) {
    k in sh.table.markers ==>
      && k in sh'.table.markers
      && var m, m' := sh.table.markers[k], sh'.table.markers[k];
      && (m.status == Succeeded ==> m' == m)
      && (|| (m'.job == m.job && m'.token == m.token)
          || OwnedBy(sh', GenerationId(k.fingerprint, m'.job, m'.token), w))
  }

  /** What a step of worker w leaves to the others. */
  ghost predicate Guarantee(sh: Shared, sh': Shared, w: nat) {
    && (forall g :: AttemptKept(sh, sh', g))
    && (forall k :: DocumentKept(sh, sh', k))
    && (forall g :: PublicationKept(sh, sh', w, g))
    && (forall g :: GenerationKept(sh, sh', w, g))
    && (forall k :: JobKept(sh, sh', k))
    && (forall k :: MarkerKept(sh, sh', w, k))
  }

  // ---------------------------------------------------------------- stability

  lemma ReadEarlierIsStable(sh: Shared, sh': Shared, w: nat, d: Document)
    requires Guarantee(sh, sh', w) && ReadEarlier(sh, d)
    ensures ReadEarlier(sh', d)
  {
    assert DocumentKept(sh, sh', d.Key());
    if d.activeGeneration.Some? {
      assert PublicationKept(sh, sh', w, d.activeGeneration.value);
    }
  }

  lemma AttemptIsStable(sh: Shared, sh': Shared, w: nat, v: nat, a: Attempt)
    requires Guarantee(sh, sh', w) && AttemptInv(sh, v, a)
    ensures AttemptInv(sh', v, a)
  {
    ReadEarlierIsStable(sh, sh', w, a.document);
    assert AttemptKept(sh, sh', a.Generation());
  }

  lemma DisposableIsStable(sh: Shared, sh': Shared, w: nat, v: nat, g: GenerationId)
    requires Guarantee(sh, sh', w) && Disposable(sh, v, g) && (v != w || g !in sh'.published || Replaced(sh, g))
    ensures Disposable(sh', v, g)
  {
    assert AttemptKept(sh, sh', g) && PublicationKept(sh, sh', w, g);
    assert DocumentKept(sh, sh', DocumentKeyOf(g));
  }

  lemma ReconcilingIsStable(sh: Shared, sh': Shared, w: nat, v: nat, x: Worker)
    requires Guarantee(sh, sh', w) && v != w && WorkerInv(sh, v, x) && SharedInv(sh') && x.Reconciling?
    ensures WorkerInv(sh', v, x)
  {
    var a := x.attempt;
    var g := a.Generation();
    AttemptIsStable(sh, sh', w, v, a);
    assert PublicationKept(sh, sh', w, g) && GenerationKept(sh, sh', w, g);
    assert DocumentKept(sh, sh', a.document.Key()) && DocumentInv(sh', a.document.Key());
    assert JobKept(sh, sh', JobKey(a.document.tenant, a.command.job));
    assert MarkerKept(sh, sh', w, MarkerKeyOf(a.Fingerprint()));
  }

  lemma LeasedInvIsStable(sh: Shared, sh': Shared, w: nat, v: nat, x: Worker)
    requires Guarantee(sh, sh', w) && v != w && WorkerInv(sh, v, x) && SharedInv(sh') && x.Leased() && !x.Reconciling?
    requires x.Superseding? || Doomed(x).None?
    ensures WorkerInv(sh', v, x)
  {
    var a := x.attempt;
    var g := a.Generation();
    AttemptIsStable(sh, sh', w, v, a);
    assert PublicationKept(sh, sh', w, g) && GenerationKept(sh, sh', w, g);
    assert DocumentKept(sh, sh', a.document.Key()) && DocumentInv(sh', a.document.Key());
  }

  lemma LeavingInvIsStable(sh: Shared, sh': Shared, w: nat, v: nat, x: Worker)
    requires Guarantee(sh, sh', w) && v != w && WorkerInv(sh, v, x) && !x.Superseding? && Doomed(x).Some?
    ensures WorkerInv(sh', v, x)
  {
    DisposableIsStable(sh, sh', w, v, Doomed(x).value);
    if x.Leased() {
      AttemptIsStable(sh, sh', w, v, x.attempt);
    }
    if x.SavingRestored? {
      ReadEarlierIsStable(sh, sh', w, x.current);
    }
  }

  /** A worker's invariant survives every step of another worker. */
  lemma WorkerInvIsStable(sh: Shared, sh': Shared, w: nat, v: nat, x: Worker)
    requires Guarantee(sh, sh', w) && v != w && WorkerInv(sh, v, x) && SharedInv(sh')
    ensures WorkerInv(sh', v, x)
  {
    if x.Reconciling? {
      ReconcilingIsStable(sh, sh', w, v, x);
    } else if !x.Superseding? && Doomed(x).Some? {
      LeavingInvIsStable(sh, sh', w, v, x);
    } else if x.Leased() {
      LeasedInvIsStable(sh, sh', w, v, x);
    } else if x.Looking? || x.Acquiring? || x.LeasingSubmission? || x.Uploading? {
      ReadEarlierIsStable(sh, sh', w, x.document);
    }
  }
}
