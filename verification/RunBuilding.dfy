/** Which states the protocol can get to, step by step, with either lease repository: what the
    witnesses of the other modules are made of. */
module RunBuilding {
  import opened Entities
  import opened ControlTable
  import opened Protocol
  import opened DocumentHistory

  function Last(r: Trace): State
    requires |r.states| > 0
  {
    r.states[|r.states| - 1]
  }

  /** The state after some events, if each is enabled in its turn. */
  function After(source: TokenSource, s: State, es: seq<Event>): Option<State> {
    if es == [] then Some(s)
    else
      var before := After(source, s, es[..|es| - 1]);
      var e := es[|es| - 1];
      if before.None? || !EventEnabled(before.value, e) then None else Some(Next(source, before.value, e))
  }

  /** The protocol can get from state s to state s'. */
  ghost predicate Leads(source: TokenSource, s: State, s': State) {
    exists es :: After(source, s, es) == Some(s')
  }

  lemma LeadsToItself(source: TokenSource, s: State)
    ensures Leads(source, s, s)
  {
    assert After(source, s, []) == Some(s);
  }

  lemma LeadsOn(source: TokenSource, s: State, s': State, e: Event)
    requires Leads(source, s, s') && EventEnabled(s', e)
    ensures Leads(source, s, Next(source, s', e))
  {
    var es :| After(source, s, es) == Some(s');
    assert (es + [e])[..|es + [e]| - 1] == es;
    assert After(source, s, es + [e]) == Some(Next(source, s', e));
  }

  // ---------------------------------------------------------------- runs

  /** Run r' goes on where run r stops. */
  predicate Continues(r: Trace, r': Trace) {
    r.states <= r'.states && r.events <= r'.events
  }

  function Extend(source: TokenSource, r: Trace, e: Event): Trace
    requires |r.states| > 0 && EventEnabled(Last(r), e)
  {
    Trace(r.states + [Next(source, Last(r), e)], r.events + [e])
  }

  lemma ExtendIsRun(source: TokenSource, r: Trace, e: Event)
    requires IsRun(source, r) && EventEnabled(Last(r), e)
    ensures IsRun(source, Extend(source, r, e)) && Continues(r, Extend(source, r, e))
    ensures Last(Extend(source, r, e)) == Next(source, Last(r), e)
  {
    var r' := Extend(source, r, e);
    forall i | 0 <= i < |r'.events| ensures Follows(source, r'.states[i], r'.events[i], r'.states[i + 1]) {
      if i < |r.events| {
        assert Follows(source, r.states[i], r.events[i], r.states[i + 1]);
      }
    }
  }

  lemma {:induction false} PlayOn(source: TokenSource, r: Trace, es: seq<Event>, s: State) returns (r': Trace)
    requires IsRun(source, r) && After(source, Last(r), es) == Some(s)
    ensures IsRun(source, r') && Continues(r, r') && Last(r') == s
    decreases |es|
  {
    if es == [] {
      r' := r;
    } else {
      var front := es[..|es| - 1];
      r' := PlayOn(source, r, front, After(source, Last(r), front).value);
      ExtendIsRun(source, r', es[|es| - 1]);
      r' := Extend(source, r', es[|es| - 1]);
    }
  }

  /** Every run can be continued to every state that its last one leads to. */
  lemma ContinueTo(source: TokenSource, r: Trace, s: State) returns (r': Trace)
    requires IsRun(source, r) && Leads(source, Last(r), s)
    ensures IsRun(source, r') && Continues(r, r') && Last(r') == s
  {
    var es :| After(source, Last(r), es) == Some(s);
    r' := PlayOn(source, r, es, s);
  }

  lemma RunTo(source: TokenSource, s: State) returns (r: Trace)
    requires Leads(source, INITIAL_STATE, s)
    ensures IsRun(source, r) && Last(r) == s
  {
    r := ContinueTo(source, Trace([INITIAL_STATE], []), s);
  }

  /** A run that goes on with event e, gets to state s, and goes on with event e' from there. */
  lemma RunThrough(source: TokenSource, r: Trace, e: Event, s: State, e': Event) returns (r': Trace, i: nat, j: nat)
    requires IsRun(source, r) && EventEnabled(Last(r), e)
    requires Leads(source, Next(source, Last(r), e), s) && EventEnabled(s, e')
    ensures IsRun(source, r') && i <= j < |r'.events| && i < |r'.states|
    ensures r'.states[i] == Next(source, Last(r), e) && r'.states[j] == s && r'.events[j] == e'
  {
    ExtendIsRun(source, r, e);
    var begun := Extend(source, r, e);
    var reached := ContinueTo(source, begun, s);
    ExtendIsRun(source, reached, e');
    r', i, j := Extend(source, reached, e'), |begun.events|, |reached.events|;
    assert r'.states[i] == reached.states[i] == begun.states[i];
  }

  // ---------------------------------------------------------------- an attempt

  /** One step of worker w, the others being as in base. */
  lemma Step(source: TokenSource, from: State, s: State, w: nat, base: map<nat, Worker>, x: Worker, move: Move)
    returns (s': State)
    requires Leads(source, from, s) && s.workers == base[w := x] && Enabled(s.shared, x, move)
    ensures Leads(source, from, s')
    ensures var r := Act(source, w, s.shared, x, move); s' == State(r.0, base[w := r.1])
    ensures s' == Next(source, s, WorkerMoves(w, move))
  {
    LeadsOn(source, from, s, WorkerMoves(w, move));
    var r := Act(source, w, s.shared, x, move);
    Overwritten(base, w, x, r.1);
    s' := State(r.0, base[w := r.1]);
  }

  lemma Overwritten<K, V>(m: map<K, V>, k: K, x: V, y: V)
    ensures m[k := x][k := y] == m[k := y]
  {
  }

  /** A new worker reads the document and stands before its lease. */
  lemma Arrive(source: TokenSource, from: State, s: State, w: nat, command: Command, d: Document)
    returns (s': State)
    requires Leads(source, from, s) && w !in s.workers && d.Key() == DocumentKey(command.tenant, command.document)
    requires d.Key() in s.shared.table.documents && s.shared.table.documents[d.Key()] == d && Ingestable(d)
    ensures Leads(source, from, s') && s' == State(s.shared, s.workers[w := Acquiring(command, d)])
  {
    LeadsOn(source, from, s, StartIngestion(w, command));
    s' := Next(source, s, StartIngestion(w, command));
    s' := Step(source, from, s', w, s.workers, Starting(command), Beginning(ReadDocument));
    s' := Step(source, from, s', w, s.workers, Looking(command, d), Beginning(FindPrevious(false)));
  }

  /** The lease is granted, and the worker is told. */
  function Leased(source: TokenSource, sh: Shared, w: nat, x: Worker, now: int, expiresAt: int): Shared
    requires x.Acquiring?
  {
    var a := NextAttempt(source, sh, x, now);
    Begun(GrantLease(sh, x.document.LeaseOf(), Lease(x.command.job, a.token, x.command.execution, expiresAt)), w, a)
  }

  lemma TakeLease(source: TokenSource, from: State, s: State, w: nat, base: map<nat, Worker>, x: Worker,
                  now: int, expiresAt: int)
    returns (s': State)
    requires Leads(source, from, s) && s.workers == base[w := x]
    requires CanBegin(s.shared, x, Acquire(now, expiresAt, false))
    ensures Leads(source, from, s') && s' == Next(source, s, WorkerMoves(w, Beginning(Acquire(now, expiresAt, false))))
    ensures s' == State(Leased(source, s.shared, w, x, now, expiresAt),
                        base[w := Claiming(NextAttempt(source, s.shared, x, now))])
  {
    s' := Step(source, from, s, w, base, x, Beginning(Acquire(now, expiresAt, false)));
  }

  /** The document once the attempt has marked it. */
  function MarkedDocument(a: Attempt): Document {
    if a.document.activeGeneration.Some? then a.document
    else a.document.(status := Processing, updatedAt := a.startedAt, revision := a.document.revision + 1)
  }

  /** The table once an attempt has claimed and recorded. */
  function Recorded(t: Table, a: Attempt): Table {
    PutGeneration(PutJob(t, RunningJob(a)), BuildingGeneration(a))
  }

  /** The table once an attempt has claimed, recorded and marked. */
  function Prepared(t: Table, a: Attempt): Table {
    var recorded := Recorded(t, a);
    if a.document.activeGeneration.Some? then recorded
    else recorded.(documents := recorded.documents[a.document.Key() := MarkedDocument(a)])
  }

  lemma ClaimAndRecord(source: TokenSource, from: State, s: State, w: nat, base: map<nat, Worker>, a: Attempt)
    returns (s': State)
    requires Leads(source, from, s) && s.workers == base[w := Claiming(a)]
    requires ClaimAllowed(s.shared.table, RunningJob(a))
    ensures Leads(source, from, s')
    ensures s' == State(WithTable(s.shared, Recorded(s.shared.table, a)), base[w := Marking(a)])
  {
    s' := Step(source, from, s, w, base, Claiming(a), Preparation(Claim(false)));
    s' := Step(source, from, s', w, base, Recording(a), Preparation(Record(false)));
  }

  lemma MarkStep(sh: Shared, a: Attempt)
    requires SaveDocumentAllowed(sh.table, a.document, a.document.revision)
    ensures var r := DoPrepare(sh, Marking(a), Mark(a.startedAt, false));
            && r.0.table == (if a.document.activeGeneration.Some? then sh.table
                             else sh.table.(documents := sh.table.documents[a.document.Key() := MarkedDocument(a)]))
            && r == (WithTable(sh, r.0.table), Preparing(a, MarkedDocument(a).revision))
  {
  }

  lemma PrepareAttempt(source: TokenSource, from: State, s: State, w: nat, base: map<nat, Worker>, a: Attempt)
    returns (s': State)
    requires Leads(source, from, s) && s.workers == base[w := Claiming(a)]
    requires ClaimAllowed(s.shared.table, RunningJob(a))
    requires SaveDocumentAllowed(s.shared.table, a.document, a.document.revision)
    ensures Leads(source, from, s')
    ensures s' == State(WithTable(s.shared, Prepared(s.shared.table, a)),
                        base[w := Preparing(a, MarkedDocument(a).revision)])
  {
    s' := ClaimAndRecord(source, from, s, w, base, a);
    MarkStep(WithTable(s.shared, Recorded(s.shared.table, a)), a);
    s' := Step(source, from, s', w, base, Marking(a), Preparation(Mark(a.startedAt, false)));
  }

  /** One chunk, one vector, ready. */
  function Filled(sh: Shared, a: Attempt): Shared {
    sh.(table := PutGeneration(sh.table, ReadyGeneration(a, 1, a.startedAt)),
        chunks := PutObjects(sh.chunks, a.Generation(), {0}),
        vectors := PutObjects(sh.vectors, a.Generation(), {0}))
  }

  /** What such an attempt carries into its activation. */
  function CandidateOf(a: Attempt): Candidate {
    Candidate(MarkedDocument(a).revision, 1, a.startedAt, a.startedAt)
  }

  lemma PutObjectsOf(source: TokenSource, from: State, s: State, w: nat, base: map<nat, Worker>, a: Attempt)
    returns (s': State)
    requires Leads(source, from, s) && s.workers == base[w := Preparing(a, MarkedDocument(a).revision)]
    ensures Leads(source, from, s')
    ensures s' == State(s.shared.(chunks := PutObjects(s.shared.chunks, a.Generation(), {0}),
                                  vectors := PutObjects(s.shared.vectors, a.Generation(), {0})),
                        base[w := Storing(a, MarkedDocument(a).revision, 1, {0}, {0})])
  {
    var revision := MarkedDocument(a).revision;
    s' := Step(source, from, s, w, base, Preparing(a, revision), Construction(Extract(1)));
    s' := Step(source, from, s', w, base, Storing(a, revision, 1, {}, {}), Construction(PutChunk(0, false)));
    assert {} + {0} == {0};
    s' := Step(source, from, s', w, base, Storing(a, revision, 1, {0}, {}), Construction(PutVectors({0}, false)));
  }

  lemma BuildCandidate(source: TokenSource, from: State, s: State, w: nat, base: map<nat, Worker>, a: Attempt)
    returns (s': State)
    requires Leads(source, from, s) && s.workers == base[w := Preparing(a, MarkedDocument(a).revision)]
    ensures Leads(source, from, s') && s' == State(Filled(s.shared, a), base[w := Activating(a, CandidateOf(a))])
  {
    var revision := MarkedDocument(a).revision;
    s' := PutObjectsOf(source, from, s, w, base, a);
    s' := Step(source, from, s', w, base, Storing(a, revision, 1, {0}, {0}), Construction(AllPut));
    s' := Step(source, from, s', w, base, Readying(a, revision, 1),
               Construction(SaveReady(a.startedAt, a.startedAt, false)));
  }

  /** The shared state once the activation has committed. */
  function Committed(sh: Shared, a: Attempt, c: Candidate): Shared
    requires Activatable(sh.table, a, c)
  {
    sh.(table := Activate(sh.table, ReadyGeneration(a, c.count, c.readyAt), SucceededJob(a, c.count, c.completedAt),
                          c.revision, c.completedAt),
        published := sh.published + {a.Generation()})
  }

  lemma CommitCandidate(source: TokenSource, from: State, s: State, w: nat, base: map<nat, Worker>,
                        a: Attempt, c: Candidate)
    returns (s': State)
    requires Leads(source, from, s) && s.workers == base[w := Activating(a, c)] && Activatable(s.shared.table, a, c)
    ensures Leads(source, from, s') && s' == State(Committed(s.shared, a, c), base[w := Superseding(a, None)])
  {
    s' := Step(source, from, s, w, base, Activating(a, c), Publication(CommitActivation(false)));
  }

  /** Everything that the activation of a prepared attempt needs besides its generation. */
  predicate ReadyToBuild(t: Table, a: Attempt) {
    && LeaseHeld(t, a.document.LeaseOf(), a.command.job, a.token, a.startedAt)
    && a.document.Key() in t.documents && t.documents[a.document.Key()] == MarkedDocument(a)
    && a.document.lastFencingToken < a.token
    && RunningJob(a).Key() in t.jobs && t.jobs[RunningJob(a).Key()] == RunningJob(a)
    && MarkerKeyOf(a.Fingerprint()) in t.markers
    && t.markers[MarkerKeyOf(a.Fingerprint())] == Marker(a.command.job, Running, a.token)
  }

  lemma BuiltIsActivatable(sh: Shared, a: Attempt)
    requires ReadyToBuild(sh.table, a)
    ensures Activatable(Filled(sh, a).table, a, CandidateOf(a))
  {
  }

  lemma PreparedIsReady(t: Table, a: Attempt)
    requires LeaseHeld(t, a.document.LeaseOf(), a.command.job, a.token, a.startedAt)
    requires a.document.Key() in t.documents && t.documents[a.document.Key()] == a.document
    requires a.document.lastFencingToken < a.token
    ensures ReadyToBuild(Prepared(t, a), a)
  {
  }

  // ---------------------------------------------------------------- registration and submission

  /** A document as registration writes it. */
  predicate New(d: Document) {
    && d.status == PendingUpload && d.revision == 0 && d.lastFencingToken == 0
    && d.activeGeneration.None? && d.activeFingerprint.None?
  }

  lemma Enroll(source: TokenSource, d: Document) returns (s: State)
    requires New(d)
    ensures Leads(source, INITIAL_STATE, s)
    ensures s == State(WithTable(INITIAL_STATE.shared, EMPTY_TABLE.(documents := map[d.Key() := d])), map[])
  {
    LeadsToItself(source, INITIAL_STATE);
    LeadsOn(source, INITIAL_STATE, INITIAL_STATE, OutsideActs(Register(d)));
    s := Next(source, INITIAL_STATE, OutsideActs(Register(d)));
  }

  /** The lease of a submission under the job id "job". */
  function SubmissionLease(token: nat): Lease {
    Lease(SubmissionOwner("job"), token, "", 1)
  }

  lemma AskForSubmission(source: TokenSource, from: State, s: State, w: nat, d: Document) returns (s': State)
    requires Leads(source, from, s) && w !in s.workers && d.status == PendingUpload
    requires d.Key() in s.shared.table.documents && s.shared.table.documents[d.Key()] == d
    ensures Leads(source, from, s') && s' == State(s.shared, s.workers[w := LeasingSubmission(d, "job")])
  {
    LeadsOn(source, from, s, StartSubmission(w, d.tenant, d.id, "job"));
    s' := Next(source, s, StartSubmission(w, d.tenant, d.id, "job"));
    s' := Step(source, from, s', w, s.workers, Requested(d.tenant, d.id, "job"), Submitting(ReadForSubmission));
  }

  const SUBMIT := Submitting(AcquireSubmission(0, 1, "", false))

  lemma TakeForSubmission(source: TokenSource, from: State, s: State, w: nat, base: map<nat, Worker>, d: Document)
    returns (s': State)
    requires Leads(source, from, s) && s.workers == base[w := LeasingSubmission(d, "job")]
    requires d.LeaseOf() !in s.shared.table.leases
    ensures Leads(source, from, s')
    ensures var token := NextToken(source, s.shared, d.LeaseOf());
            s' == State(GrantLease(s.shared, d.LeaseOf(), SubmissionLease(token)),
                        base[w := Uploading(d, "job", token)])
  {
    s' := Step(source, from, s, w, base, LeasingSubmission(d, "job"), SUBMIT);
  }

  lemma ReleaseForSubmission(source: TokenSource, from: State, s: State, w: nat, base: map<nat, Worker>, x: Worker)
    returns (s': State)
    requires Leads(source, from, s) && s.workers == base[w := x]
    requires (x.Uploading? || x.Enrolling?) && x.job == "job"
    requires s.shared.table.leases == map[x.document.LeaseOf() := SubmissionLease(x.token)]
    ensures Leads(source, from, s')
    ensures s' == State(WithTable(s.shared, s.shared.table.(leases := map[])), base[w := Ended(None, None)])
  {
    s' := Step(source, from, s, w, base, x, Submitting(ReleaseSubmission));
    assert s'.shared.table.leases == map[];
  }

  /** The document that a new one becomes when its content has been uploaded. */
  function UploadedDocument(d: Document): Document {
    d.(status := Uploaded, updatedAt := 0, revision := 1)
  }

  /** A document waits to be ingested, nobody is at work, and its lease item is gone. */
  predicate Waiting(s: State, d: Document) {
    && d.Key() in s.shared.table.documents && s.shared.table.documents[d.Key()] == d
    && d.status == Uploaded && d.activeGeneration.None? && d.lastFencingToken == 0
    && s.shared.table.leases == map[] && s.shared.table.jobs == map[] && s.shared.table.markers == map[]
    && 0 !in s.workers && 1 !in s.workers && 2 !in s.workers
    && forall w :: w in s.workers ==> !s.workers[w].Leased()
  }

  /** Registration, and a submission up to its lease. */
  lemma EnrollAndTake(source: TokenSource, d: Document) returns (s: State)
    requires New(d)
    ensures Leads(source, INITIAL_STATE, s)
    ensures var sh := WithTable(INITIAL_STATE.shared, EMPTY_TABLE.(documents := map[d.Key() := d]));
            var token := NextToken(source, sh, d.LeaseOf());
            s == State(GrantLease(sh, d.LeaseOf(), SubmissionLease(token)), map[][3 := Uploading(d, "job", token)])
  {
    s := Enroll(source, d);
    s := AskForSubmission(source, INITIAL_STATE, s, 3, d);
    s := TakeForSubmission(source, INITIAL_STATE, s, 3, map[], d);
  }

  /** Registration and one submission, which releases its lease. */
  lemma Upload(source: TokenSource, d: Document) returns (s: State)
    requires New(d)
    ensures Leads(source, INITIAL_STATE, s) && Waiting(s, UploadedDocument(d))
  {
    s := EnrollAndTake(source, d);
    var token := s.workers[3].token;
    s := Step(source, INITIAL_STATE, s, 3, map[], Uploading(d, "job", token), Submitting(SaveUploaded(0, false)));
    s := ReleaseForSubmission(source, INITIAL_STATE, s, 3, map[], Enrolling(UploadedDocument(d), "job", token));
  }
}
