/** What every interleaving of submit, claim, fenced save and activation keeps, whatever
    happens to documents, leases and generations in between. */
module JobCoherence {
  import opened Entities
  import opened ControlTable

  /** One write that the job repository or the activation repository attempts with
      arbitrary arguments, or any change of the other three kinds of item. */
  datatype Write =
    | SubmitJob(job: Job)
    | ClaimJob(job: Job)
    | SaveJob(job: Job)
    | ActivateGeneration(generation: Generation, job: Job, expectedRevision: nat, at: int)
    | OtherItems(documents: map<DocumentKey, Document>,
                 leases: map<LeaseKey, Lease>,
                 generations: map<GenerationKey, Generation>)

  /** What the callers pass: pending unfenced submissions, running claims, and fenced saves
      of a status that a claimed job can have. */
  predicate WellFormed(w: Write) {
    match w
    case SubmitJob(job) => job.status == Pending && job.fingerprint.None? && job.fencingToken.None?
    case ClaimJob(job) => job.Fenced() && job.status == Running
    case SaveJob(job) => job.Fenced() && job.status != Pending
    case ActivateGeneration(generation, job, _, _) => ActivationValid(generation, job)
    case OtherItems(_, _, _) => true
  }

  predicate Commits(t: Table, w: Write)
    requires WellFormed(w)
  {
    match w
    case SubmitJob(job) => SubmitAllowed(t, job)
    case ClaimJob(job) => ClaimAllowed(t, job)
    case SaveJob(job) => SaveAllowed(t, job)
    case ActivateGeneration(generation, job, revision, at) => ActivationAllowed(t, generation, job, revision, at)
    case OtherItems(_, _, _) => true
  }

  function Apply(t: Table, w: Write): Table
    requires WellFormed(w)
  {
    if !Commits(t, w) then t
    else match w
      case SubmitJob(job) => Submit(t, job)
      case ClaimJob(job) => PutJob(t, job)
      case SaveJob(job) => PutJob(t, job)
      case ActivateGeneration(generation, job, revision, at) => Activate(t, generation, job, revision, at)
      case OtherItems(documents, leases, generations) =>
        t.(documents := documents, leases := leases, generations := generations)
  }

  predicate AllWellFormed(ws: seq<Write>) {
    forall i :: 0 <= i < |ws| ==> WellFormed(ws[i])
  }

  function Run(t: Table, ws: seq<Write>): Table
    requires AllWellFormed(ws)
    decreases |ws|
  {
    if ws == [] then t else Apply(Run(t, ws[..|ws| - 1]), ws[|ws| - 1])
  }

  /** Each marker names an existing job with its fingerprint, token and status, and a job
      that still waits for its claim has no fingerprint. */
  ghost predicate Coherent(t: Table) {
    (forall k :: JobCoherent(t, k)) && (forall k :: MarkerCoherent(t, k))
  }

  predicate JobCoherent(t: Table, k: JobKey) {
    k in t.jobs ==> t.jobs[k].Key() == k && (t.jobs[k].status == Pending ==> t.jobs[k].fingerprint.None?)
  }

  predicate MarkerCoherent(t: Table, k: MarkerKey) {
    k in t.markers ==>
      var jobKey := JobKey(k.tenant, t.markers[k].job);
      && jobKey in t.jobs
      && t.jobs[jobKey].fingerprint == Some(k.fingerprint)
      && t.jobs[jobKey].fencingToken == Some(t.markers[k].token)
      && t.jobs[jobKey].status == t.markers[k].status
  }

  /** A claim or a fenced save: the marker that it replaces is the only one that can name
      the job that it replaces. */
  lemma PutJobKeepsCoherence(t: Table, job: Job)
    requires Coherent(t) && job.Fenced() && job.status != Pending
    requires ClaimAllowed(t, job) || SaveAllowed(t, job)
    ensures Coherent(PutJob(t, job))
  {
    var t' := PutJob(t, job);
    forall k ensures JobCoherent(t', k) {
      assert JobCoherent(t, k);
    }
    forall k ensures MarkerCoherent(t', k) {
      assert MarkerCoherent(t, k);
      assert JobCoherent(t, job.Key());
    }
  }

  lemma ActivateKeepsCoherence(t: Table, generation: Generation, job: Job, revision: nat, at: int)
    requires Coherent(t) && ActivationValid(generation, job)
    requires ActivationAllowed(t, generation, job, revision, at)
    ensures Coherent(Activate(t, generation, job, revision, at))
  {
    var t' := Activate(t, generation, job, revision, at);
    forall k ensures JobCoherent(t', k) {
      assert JobCoherent(t, k);
    }
    forall k ensures MarkerCoherent(t', k) {
      assert MarkerCoherent(t, k);
    }
  }

  lemma OtherItemsKeepCoherence(t: Table, t': Table)
    requires Coherent(t) && t'.jobs == t.jobs && t'.markers == t.markers
    ensures Coherent(t')
  {
    forall k ensures JobCoherent(t', k) {
      assert JobCoherent(t, k);
    }
    forall k ensures MarkerCoherent(t', k) {
      assert MarkerCoherent(t, k);
    }
  }

  lemma SubmitKeepsCoherence(t: Table, job: Job)
    requires Coherent(t) && SubmitAllowed(t, job) && job.fingerprint.None?
    ensures Coherent(Submit(t, job))
  {
    var t' := Submit(t, job);
    forall k ensures JobCoherent(t', k) {
      assert JobCoherent(t, k);
    }
    forall k ensures MarkerCoherent(t', k) {
      assert MarkerCoherent(t, k);
    }
  }

  lemma ApplyKeepsCoherence(t: Table, w: Write)
    requires WellFormed(w) && Coherent(t)
    ensures Coherent(Apply(t, w))
  {
    if Commits(t, w) {
      match w
      case SubmitJob(job) => SubmitKeepsCoherence(t, job);
      case ClaimJob(job) => PutJobKeepsCoherence(t, job);
      case SaveJob(job) => PutJobKeepsCoherence(t, job);
      case ActivateGeneration(generation, job, revision, at) =>
        ActivateKeepsCoherence(t, generation, job, revision, at);
      case OtherItems(_, _, _) => OtherItemsKeepCoherence(t, Apply(t, w));
    }
  }

  lemma EmptyIsCoherent()
    ensures Coherent(EMPTY_TABLE)
  {
    assert forall k :: JobCoherent(EMPTY_TABLE, k);
    assert forall k :: MarkerCoherent(EMPTY_TABLE, k);
  }

  lemma {:induction false} RunKeepsCoherence(t: Table, ws: seq<Write>)
    requires AllWellFormed(ws) && Coherent(t)
    ensures Coherent(Run(t, ws))
    decreases |ws|
  {
    if ws != [] {
      RunKeepsCoherence(t, ws[..|ws| - 1]);
      ApplyKeepsCoherence(Run(t, ws[..|ws| - 1]), ws[|ws| - 1]);
    }
  }

  /** The two reads of find_by_fingerprint; Missing is its runtime error. */
  datatype Lookup = NoMarker | Found(job: Job) | Missing

  function FindByFingerprint(t: Table, k: MarkerKey): Lookup {
    if k !in t.markers then NoMarker
    else
      var jobKey := JobKey(k.tenant, t.markers[k].job);
      if jobKey !in t.jobs || t.jobs[jobKey].Key() != jobKey then Missing else Found(t.jobs[jobKey])
  }

  /** In a coherent table the lookup answers, and answers with the marker's owner. */
  lemma LookupFindsTheOwner(t: Table, k: MarkerKey)
    requires Coherent(t)
    ensures match FindByFingerprint(t, k)
            case Missing => false
            case NoMarker => k !in t.markers
            case Found(job) => && k in t.markers
                               && job.tenant == k.tenant
                               && job.fingerprint == Some(k.fingerprint)
                               && job.Fenced()
                               && job.AsMarker() == t.markers[k]
  {
    assert MarkerCoherent(t, k);
    assert k in t.markers ==> JobCoherent(t, JobKey(k.tenant, t.markers[k].job));
  }

  /** Every reachable table is coherent, so that the lookup's error never occurs. */
  lemma LookupNeverMissesItsJob(ws: seq<Write>, k: MarkerKey)
    requires AllWellFormed(ws)
    ensures var t := Run(EMPTY_TABLE, ws);
            match FindByFingerprint(t, k)
            case Missing => false
            case NoMarker => k !in t.markers
            case Found(job) => && k in t.markers
                               && job.tenant == k.tenant
                               && job.fingerprint == Some(k.fingerprint)
                               && job.Fenced()
                               && job.AsMarker() == t.markers[k]
  {
    EmptyIsCoherent();
    RunKeepsCoherence(EMPTY_TABLE, ws);
    LookupFindsTheOwner(Run(EMPTY_TABLE, ws), k);
  }

  /** How one write may change a marker. */
  predicate MarkerStep(m: Marker, m': Marker) {
    || m' == m
    || (m.status == Running && m' == m.(status := m'.status))                  // its owner finishes
    || (m.status == Running && m'.status == Running && m.token < m'.token)     // taken over
    || (m.status == Failed && m'.status == Running)                            // retried
  }

  lemma MarkersMoveForward(t: Table, w: Write, k: MarkerKey)
    requires WellFormed(w) && Coherent(t) && k in t.markers
    ensures k in Apply(t, w).markers && MarkerStep(t.markers[k], Apply(t, w).markers[k])
  {
    assert MarkerCoherent(t, k);
  }

  /** No write removes a marker. */
  lemma {:induction false} MarkersStay(t: Table, ws: seq<Write>, k: MarkerKey)
    requires AllWellFormed(ws) && Coherent(t) && k in t.markers
    ensures k in Run(t, ws).markers
    decreases |ws|
  {
    if ws != [] {
      var before := ws[..|ws| - 1];
      MarkersStay(t, before, k);
      RunKeepsCoherence(t, before);
      MarkersMoveForward(Run(t, before), ws[|ws| - 1], k);
    }
  }

  /** A succeeded marker and its job never change again. */
  lemma {:induction false} SucceededIsAbsorbing(t: Table, ws: seq<Write>, k: MarkerKey)
    requires AllWellFormed(ws) && Coherent(t)
    requires k in t.markers && t.markers[k].status == Succeeded
    ensures k in Run(t, ws).markers && Run(t, ws).markers[k] == t.markers[k]
    decreases |ws|
  {
    if ws != [] {
      var before := ws[..|ws| - 1];
      SucceededIsAbsorbing(t, before, k);
      RunKeepsCoherence(t, before);
      MarkersMoveForward(Run(t, before), ws[|ws| - 1], k);
    }
  }

  lemma {:induction false} RunOfConcatenation(t: Table, a: seq<Write>, b: seq<Write>)
    requires AllWellFormed(a) && AllWellFormed(b)
    ensures AllWellFormed(a + b) && Run(t, a + b) == Run(Run(t, a), b)
    decreases |b|
  {
    if b == [] {
      assert a + b == a;
    } else {
      var front := b[..|b| - 1];
      RunOfConcatenation(t, a, front);
      assert (a + b)[..|a + b| - 1] == a + front;
    }
  }

  /** No run publishes one fingerprint twice: after one committed activation, every later
      activation that names the fingerprint is rejected, whoever sends it. */
  lemma FingerprintIsPublishedAtMostOnce(ws: seq<Write>, i: nat, j: nat)
    requires AllWellFormed(ws) && i < j < |ws|
    requires ws[i].ActivateGeneration? && Commits(Run(EMPTY_TABLE, ws[..i]), ws[i])
    requires ws[j].ActivateGeneration? && ws[j].generation.MarkerOf() == ws[i].generation.MarkerOf()
    ensures !Commits(Run(EMPTY_TABLE, ws[..j]), ws[j])
  {
    var k := ws[i].generation.MarkerOf();
    EmptyIsCoherent();
    RunKeepsCoherence(EMPTY_TABLE, ws[..i + 1]);
    assert ws[..i + 1][..i] == ws[..i];
    var published := Run(EMPTY_TABLE, ws[..i + 1]);
    RunOfConcatenation(EMPTY_TABLE, ws[..i + 1], ws[i + 1..j]);
    assert ws[..i + 1] + ws[i + 1..j] == ws[..j];
    SucceededIsAbsorbing(published, ws[i + 1..j], k);
    RunKeepsCoherence(EMPTY_TABLE, ws[..j]);
    assert MarkerCoherent(Run(EMPTY_TABLE, ws[..j]), k);
  }
}
