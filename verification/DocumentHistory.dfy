/** Runs of the protocol, and what they do to documents whether or not tokens repeat:
    optimistic concurrency loses no update, tokens never decrease, and only an activation
    changes what a document points to. */
module DocumentHistory {
  import opened Entities
  import opened ControlTable
  import opened Protocol
  import opened ProtocolInvariant

  /** states[i] --events[i]--> states[i + 1], from the empty table. */
  datatype Trace = Trace(states: seq<State>, events: seq<Event>)

  predicate IsRun(source: TokenSource, r: Trace) {
    && |r.states| == |r.events| + 1
    && r.states[0] == INITIAL_STATE
    && forall i :: 0 <= i < |r.events| ==> Follows(source, r.states[i], r.events[i], r.states[i + 1])
  }

  predicate Follows(source: TokenSource, s: State, e: Event, s': State) {
    EventEnabled(s, e) && s' == Next(source, s, e)
  }

  // ---------------------------------------------------------------- the invariant

  predicate DocumentBase(sh: Shared, k: DocumentKey) {
    k in sh.table.documents ==>
      && sh.table.documents[k].Key() == k
      && WellFormedDocument(sh.table.documents[k])
      && (sh.table.documents[k].activeGeneration.Some? ==> sh.table.documents[k].activeGeneration.value in sh.published)
  }

  /** Every document value that a worker holds was read earlier. */
  predicate WorkerBase(sh: Shared, x: Worker) {
    && (x.Leased() ==> ReadEarlier(sh, x.attempt.document))
    && (x.Looking? || x.Acquiring? || x.LeasingSubmission? || x.Uploading? ==> ReadEarlier(sh, x.document))
    && (x.SavingRestored? ==> ReadEarlier(sh, x.current) && x.current.activeGeneration.None?)
    && (x.Superseding? || (x.Reconciling? && x.stage > 0) ==> x.attempt.Generation() in sh.published)
  }

  ghost predicate SharedBase(sh: Shared) {
    forall k :: DocumentBase(sh, k)
  }

  ghost predicate Base(s: State) {
    && SharedBase(s.shared)
    && forall w :: w in s.workers ==> WorkerBase(s.shared, s.workers[w])
  }

  ghost predicate Forward(sh: Shared, sh': Shared) {
    sh.published <= sh'.published && forall k :: DocumentKept(sh, sh', k)
  }

  lemma ReadsStayEarlier(sh: Shared, sh': Shared, d: Document)
    requires Forward(sh, sh') && ReadEarlier(sh, d)
    ensures ReadEarlier(sh', d)
  {
    assert DocumentKept(sh, sh', d.Key());
  }

  lemma WorkerBaseIsStable(sh: Shared, sh': Shared, x: Worker)
    requires Forward(sh, sh') && WorkerBase(sh, x)
    ensures WorkerBase(sh', x)
  {
    if x.Leased() { ReadsStayEarlier(sh, sh', x.attempt.document); }
    if x.Looking? || x.Acquiring? || x.LeasingSubmission? || x.Uploading? { ReadsStayEarlier(sh, sh', x.document); }
    if x.SavingRestored? { ReadsStayEarlier(sh, sh', x.current); }
  }

  lemma SameDocuments(sh: Shared, sh': Shared)
    requires SharedBase(sh) && sh'.table.documents == sh.table.documents && sh'.published == sh.published
    ensures SharedBase(sh') && Forward(sh, sh')
  {
    forall k ensures DocumentBase(sh', k) { assert DocumentBase(sh, k); }
    assert forall k :: DocumentKept(sh, sh', k);
  }

  lemma SaveIsForward(sh: Shared, read: Document, status: DocumentStatus, at: int)
    requires SharedBase(sh) && ReadEarlier(sh, read) && read.activeGeneration.None? && status != Indexed
    requires SaveDocumentAllowed(sh.table, read, read.revision)
    ensures var sh' := WithTable(sh, SaveDocument(sh.table, read.(status := status, updatedAt := at), read.revision));
            SharedBase(sh') && Forward(sh, sh')
  {
    var sh' := WithTable(sh, SaveDocument(sh.table, read.(status := status, updatedAt := at), read.revision));
    assert sh.table.documents[read.Key()] == read;
    forall k ensures DocumentBase(sh', k) { assert DocumentBase(sh, k); }
    forall k ensures DocumentKept(sh, sh', k) {
      if k == read.Key() { assert DocumentWritten(read, sh'.table.documents[k]); }
    }
  }

  lemma CommitIsForward(sh: Shared, x: Worker, lost: bool)
    requires SharedBase(sh) && WorkerBase(sh, x) && CanPublish(sh, x, CommitActivation(lost))
    ensures var sh' := DoPublish(sh, x, CommitActivation(lost)).0; SharedBase(sh') && Forward(sh, sh')
  {
    var sh' := DoPublish(sh, x, CommitActivation(lost)).0;
    forall k ensures DocumentBase(sh', k) { assert DocumentBase(sh, k); }
    forall k ensures DocumentKept(sh, sh', k) {
      if k == x.attempt.document.Key() {
        assert DocumentBase(sh, k);
        assert DocumentWritten(sh.table.documents[k], sh'.table.documents[k]);
      }
    }
  }

  lemma WriterIsForward(source: TokenSource, w: nat, sh: Shared, x: Worker, move: Move)
    requires SharedBase(sh) && WorkerBase(sh, x) && Enabled(sh, x, move) && WritesDocument(move)
    ensures var sh' := Act(source, w, sh, x, move).0; SharedBase(sh') && Forward(sh, sh')
  {
    var sh' := Act(source, w, sh, x, move).0;
    if sh' == sh {
      SameDocuments(sh, sh);
    } else if move.Preparation? {
      SaveIsForward(sh, x.attempt.document, Processing, move.prepare.at);
    } else if move.Recovery? {
      SaveIsForward(sh, x.current, DocumentFailed, move.recover.at);
    } else if move.Submitting? {
      SaveIsForward(sh, x.document, Uploaded, move.submission.at);
    } else {
      CommitIsForward(sh, x, move.publish.lost);
    }
  }

  lemma MoveIsForward(source: TokenSource, w: nat, sh: Shared, x: Worker, move: Move)
    requires SharedBase(sh) && WorkerBase(sh, x) && Enabled(sh, x, move)
    ensures var sh' := Act(source, w, sh, x, move).0; SharedBase(sh') && Forward(sh, sh')
  {
    if WritesDocument(move) {
      WriterIsForward(source, w, sh, x, move);
    } else {
      SameDocuments(sh, Act(source, w, sh, x, move).0);
    }
  }

  // The worker's own reads after its step, phase by phase.

  lemma BeginKeepsBase(source: TokenSource, w: nat, sh: Shared, x: Worker, step: Begin)
    requires SharedBase(sh) && CanBegin(sh, x, step)
    requires var sh' := DoBegin(source, w, sh, x, step).0; WorkerBase(sh', x) && SharedBase(sh')
    ensures var r := DoBegin(source, w, sh, x, step); WorkerBase(r.0, r.1)
  {
    if step.ReadDocument? { assert DocumentBase(sh, DocumentKey(x.command.tenant, x.command.document)); }
  }

  lemma SubmitKeepsBase(source: TokenSource, w: nat, sh: Shared, x: Worker, step: Submission)
    requires SharedBase(sh) && CanSubmit(sh, x, step)
    requires var sh' := DoSubmit(source, w, sh, x, step).0; WorkerBase(sh', x) && SharedBase(sh')
    ensures var r := DoSubmit(source, w, sh, x, step); WorkerBase(r.0, r.1)
  {
    if step.ReadForSubmission? { assert DocumentBase(sh, DocumentKey(x.tenant, x.documentId)); }
  }

  lemma PublishKeepsBase(sh: Shared, x: Worker, step: Publish)
    requires SharedBase(sh) && CanPublish(sh, x, step)
    requires var sh' := DoPublish(sh, x, step).0; WorkerBase(sh', x) && SharedBase(sh')
    ensures var r := DoPublish(sh, x, step); WorkerBase(r.0, r.1)
  {
    assert DocumentBase(sh, x.attempt.document.Key());
  }

  lemma RecoverKeepsBase(sh: Shared, x: Worker, step: Recover)
    requires SharedBase(sh) && CanRecover(sh, x, step)
    requires var sh' := DoRecover(sh, x, step).0; WorkerBase(sh', x) && SharedBase(sh')
    ensures var r := DoRecover(sh, x, step); WorkerBase(r.0, r.1)
  {
    if step.ReadCurrent? { assert DocumentBase(sh, x.attempt.document.Key()); }
  }

  lemma PrepareKeepsBase(sh: Shared, x: Worker, step: Prepare)
    requires CanPrepare(sh, x, step) && WorkerBase(DoPrepare(sh, x, step).0, x)
    ensures var r := DoPrepare(sh, x, step); WorkerBase(r.0, r.1)
  {
  }

  lemma BuildKeepsBase(sh: Shared, x: Worker, step: Build)
    requires CanBuild(sh, x, step) && WorkerBase(DoBuild(sh, x, step).0, x)
    ensures var r := DoBuild(sh, x, step); WorkerBase(r.0, r.1)
  {
  }

  lemma SupersedeKeepsBase(sh: Shared, x: Worker, step: Supersede)
    requires CanSupersede(sh, x, step) && WorkerBase(DoSupersede(sh, x, step).0, x)
    ensures var r := DoSupersede(sh, x, step); WorkerBase(r.0, r.1)
  {
  }

  lemma LeaveKeepsBase(sh: Shared, x: Worker, step: Leave)
    requires CanLeave(sh, x, step) && WorkerBase(DoLeave(sh, x, step).0, x)
    ensures var r := DoLeave(sh, x, step); WorkerBase(r.0, r.1)
  {
  }

  lemma LeaserKeepsBase(source: TokenSource, w: nat, sh: Shared, x: Worker, move: Move)
    requires SharedBase(sh) && Enabled(sh, x, move) && (move.Beginning? || move.Submitting? || move.Leaving?)
    requires var sh' := Act(source, w, sh, x, move).0; WorkerBase(sh', x) && SharedBase(sh')
    ensures var r := Act(source, w, sh, x, move); WorkerBase(r.0, r.1)
  {
    match move
    case Beginning(step) => BeginKeepsBase(source, w, sh, x, step);
    case Submitting(step) => SubmitKeepsBase(source, w, sh, x, step);
    case Leaving(step) => LeaveKeepsBase(sh, x, step);
  }

  lemma AttemptKeepsBase(source: TokenSource, w: nat, sh: Shared, x: Worker, move: Move)
    requires SharedBase(sh) && Enabled(sh, x, move) && !move.Beginning? && !move.Submitting? && !move.Leaving?
    requires var sh' := Act(source, w, sh, x, move).0; WorkerBase(sh', x) && SharedBase(sh')
    ensures var r := Act(source, w, sh, x, move); WorkerBase(r.0, r.1)
  {
    match move
    case Publication(step) => PublishKeepsBase(sh, x, step);
    case Recovery(step) => RecoverKeepsBase(sh, x, step);
    case Supersession(step) => SupersedeKeepsBase(sh, x, step);
    case Preparation(step) => PrepareKeepsBase(sh, x, step);
    case Construction(step) => BuildKeepsBase(sh, x, step);
  }

  lemma MoverKeepsBase(source: TokenSource, w: nat, sh: Shared, x: Worker, move: Move)
    requires SharedBase(sh) && WorkerBase(sh, x) && Enabled(sh, x, move)
    ensures var r := Act(source, w, sh, x, move); WorkerBase(r.0, r.1)
  {
    MoveIsForward(source, w, sh, x, move);
    WorkerBaseIsStable(sh, Act(source, w, sh, x, move).0, x);
    if move.Beginning? || move.Submitting? || move.Leaving? {
      LeaserKeepsBase(source, w, sh, x, move);
    } else {
      AttemptKeepsBase(source, w, sh, x, move);
    }
  }

  lemma OutsideIsForward(sh: Shared, o: Outside)
    requires SharedBase(sh) && OutsideEnabled(sh, o)
    ensures SharedBase(ActOutside(sh, o)) && Forward(sh, ActOutside(sh, o))
  {
    var sh' := ActOutside(sh, o);
    forall k ensures DocumentBase(sh', k) { assert DocumentBase(sh, k); }
    assert forall k :: DocumentKept(sh, sh', k);
  }

  lemma EventKeepsBase(source: TokenSource, s: State, e: Event)
    requires Base(s) && EventEnabled(s, e)
    ensures Base(Next(source, s, e)) && Forward(s.shared, Next(source, s, e).shared)
  {
    var s' := Next(source, s, e);
    match e {
      case WorkerMoves(w, move) =>
        MoveIsForward(source, w, s.shared, s.workers[w], move);
        MoverKeepsBase(source, w, s.shared, s.workers[w], move);
      case OutsideActs(o) => OutsideIsForward(s.shared, o);
      case _ => SameDocuments(s.shared, s.shared);
    }
    forall v | v in s'.workers ensures WorkerBase(s'.shared, s'.workers[v]) {
      if v in s.workers && s'.workers[v] == s.workers[v] {
        WorkerBaseIsStable(s.shared, s'.shared, s.workers[v]);
      }
    }
  }

  lemma {:induction false} RunKeepsBase(source: TokenSource, r: Trace, i: nat)
    requires IsRun(source, r) && i < |r.states|
    ensures Base(r.states[i])
  {
    if i == 0 {
      assert forall k :: DocumentBase(INITIAL_STATE.shared, k);
    } else {
      RunKeepsBase(source, r, i - 1);
      assert Follows(source, r.states[i - 1], r.events[i - 1], r.states[i]);
      EventKeepsBase(source, r.states[i - 1], r.events[i - 1]);
    }
  }

  // ---------------------------------------------------------------- over whole runs

  /** In every reachable state a document is INDEXED exactly when it has an active
      generation, and that generation was published with the document's last token. */
  lemma IndexedIffActive(source: TokenSource, r: Trace, i: nat, k: DocumentKey)
    requires IsRun(source, r) && i < |r.states| && k in r.states[i].shared.table.documents
    ensures var d := r.states[i].shared.table.documents[k];
            && (d.status == Indexed <==> d.activeGeneration.Some?)
            && (d.activeGeneration.Some? ==>
                  && d.activeGeneration.value in r.states[i].shared.published
                  && d.activeGeneration.value.token == d.lastFencingToken)
  {
    RunKeepsBase(source, r, i);
    assert DocumentBase(r.states[i].shared, k);
  }

  /** Between any two states of a run: the revision never falls, an equal revision means an
      unchanged document, the fencing token never falls, and an equal token means an
      unchanged active generation. */
  lemma {:induction false} DocumentsMoveForward(source: TokenSource, r: Trace, i: nat, j: nat, k: DocumentKey)
    requires IsRun(source, r) && i <= j < |r.states| && k in r.states[i].shared.table.documents
    ensures k in r.states[j].shared.table.documents
    ensures MovedForward(r.states[i].shared.table.documents[k], r.states[j].shared.table.documents[k])
    decreases j - i
  {
    if i < j {
      DocumentsMoveForward(source, r, i, j - 1, k);
      OneStepForward(source, r, j - 1, k);
    }
  }

  predicate MovedForward(d: Document, d': Document) {
    && d'.sourceVersion == d.sourceVersion && d'.metadata == d.metadata
    && d.revision <= d'.revision
    && (d.revision == d'.revision ==> d' == d)
    && d.lastFencingToken <= d'.lastFencingToken
    && (d.lastFencingToken == d'.lastFencingToken ==> d'.activeGeneration == d.activeGeneration)
  }

  lemma OneStepForward(source: TokenSource, r: Trace, i: nat, k: DocumentKey)
    requires IsRun(source, r) && i < |r.events| && k in r.states[i].shared.table.documents
    ensures k in r.states[i + 1].shared.table.documents
    ensures MovedForward(r.states[i].shared.table.documents[k], r.states[i + 1].shared.table.documents[k])
  {
    RunKeepsBase(source, r, i);
    assert Follows(source, r.states[i], r.events[i], r.states[i + 1]);
    EventKeepsBase(source, r.states[i], r.events[i]);
    assert DocumentKept(r.states[i].shared, r.states[i + 1].shared, k);
  }

  /** What a step of worker x does to a document: a save replaces exactly the value its worker had
      read and changes the status alone; an activation by the worker that carries the
      revision points the document at that worker's generation; nothing else writes. */
  predicate Explained(x: Worker, d: Document, d': Document) {
    && d'.revision == d.revision + 1
    && (|| (&& x.Marking? && d == x.attempt.document
            && d' == d.(status := Processing, updatedAt := d'.updatedAt, revision := d'.revision))
        || (&& x.SavingRestored? && d == x.current
            && d' == d.(status := DocumentFailed, updatedAt := d'.updatedAt, revision := d'.revision))
        || (&& x.Uploading? && d == x.document && d.status == PendingUpload
            && d' == d.(status := Uploaded, updatedAt := d'.updatedAt, revision := d'.revision))
        || (&& x.Activating? && d.revision == x.candidate.revision && d.lastFencingToken < x.attempt.token
            && d' == d.(activeGeneration := Some(x.attempt.Generation()),
                        activeFingerprint := Some(x.attempt.Fingerprint()),
                        lastFencingToken := x.attempt.token, status := Indexed, updatedAt := x.candidate.completedAt,
                        revision := d'.revision)))
  }

  lemma MarkIsExplained(sh: Shared, x: Worker, at: int, lost: bool, k: DocumentKey)
    requires WorkerBase(sh, x) && x.Marking? && k in sh.table.documents
    ensures var documents := DoPrepare(sh, x, Mark(at, lost)).0.table.documents;
            k in documents &&
              (documents[k] == sh.table.documents[k] || Explained(x, sh.table.documents[k], documents[k]))
  {}

  lemma RestoreIsExplained(sh: Shared, x: Worker, at: int, k: DocumentKey)
    requires WorkerBase(sh, x) && x.SavingRestored? && k in sh.table.documents
    ensures var documents := DoRecover(sh, x, SaveRestored(at)).0.table.documents;
            k in documents &&
              (documents[k] == sh.table.documents[k] || Explained(x, sh.table.documents[k], documents[k]))
  {}

  lemma UploadIsExplained(sh: Shared, x: Worker, at: int, lost: bool, k: DocumentKey)
    requires WorkerBase(sh, x) && x.Uploading? && k in sh.table.documents
    ensures var documents := DoSubmit(DurableCounter, 0, sh, x, SaveUploaded(at, lost)).0.table.documents;
            k in documents &&
              (documents[k] == sh.table.documents[k] || Explained(x, sh.table.documents[k], documents[k]))
  {}

  lemma ActivationIsExplained(sh: Shared, x: Worker, lost: bool, k: DocumentKey)
    requires CanPublish(sh, x, CommitActivation(lost)) && k in sh.table.documents
    ensures var documents := DoPublish(sh, x, CommitActivation(lost)).0.table.documents;
            k in documents &&
              (documents[k] == sh.table.documents[k] || Explained(x, sh.table.documents[k], documents[k]))
  {}

  lemma MoveIsExplained(source: TokenSource, w: nat, s: State, move: Move, k: DocumentKey)
    requires Base(s) && w in s.workers && Enabled(s.shared, s.workers[w], move) && k in s.shared.table.documents
    ensures var sh' := Act(source, w, s.shared, s.workers[w], move).0;
            && k in sh'.table.documents
            && (|| sh'.table.documents[k] == s.shared.table.documents[k]
                || Explained(s.workers[w], s.shared.table.documents[k], sh'.table.documents[k]))
  {
    var x := s.workers[w];
    assert WorkerBase(s.shared, x);
    if WritesDocument(move) {
      if move.Preparation? {
        MarkIsExplained(s.shared, x, move.prepare.at, move.prepare.lost, k);
      } else if move.Recovery? {
        RestoreIsExplained(s.shared, x, move.recover.at, k);
      } else if move.Submitting? {
        UploadIsExplained(s.shared, x, move.submission.at, move.submission.lost, k);
      } else {
        ActivationIsExplained(s.shared, x, move.publish.lost, k);
      }
    }
  }

  lemma OutsideWritesNoStoredDocument(sh: Shared, o: Outside, k: DocumentKey)
    requires OutsideEnabled(sh, o) && k in sh.table.documents
    ensures k in ActOutside(sh, o).table.documents
    ensures ActOutside(sh, o).table.documents[k] == sh.table.documents[k]
  {}

  lemma EventIsExplained(source: TokenSource, s: State, e: Event, k: DocumentKey)
    requires Base(s) && EventEnabled(s, e) && k in s.shared.table.documents
    ensures var t' := Next(source, s, e).shared.table;
            && k in t'.documents
            && (|| t'.documents[k] == s.shared.table.documents[k]
                || (e.WorkerMoves? && Explained(s.workers[e.w], s.shared.table.documents[k], t'.documents[k])))
  {
    match e
    case WorkerMoves(w, move) => MoveIsExplained(source, w, s, move, k);
    case OutsideActs(o) => OutsideWritesNoStoredDocument(s.shared, o, k);
    case StartIngestion(_, _) => assert Next(source, s, e).shared == s.shared;
    case StartSubmission(_, _, _, _) => assert Next(source, s, e).shared == s.shared;
  }

  lemma EveryWriteIsExplained(source: TokenSource, r: Trace, i: nat, k: DocumentKey)
    requires IsRun(source, r) && i < |r.events| && k in r.states[i].shared.table.documents
    ensures k in r.states[i + 1].shared.table.documents
    ensures var d, d' := r.states[i].shared.table.documents[k], r.states[i + 1].shared.table.documents[k];
            || d' == d
            || (&& r.events[i].WorkerMoves? && r.events[i].w in r.states[i].workers
                && Explained(r.states[i].workers[r.events[i].w], d, d'))
  {
    RunKeepsBase(source, r, i);
    assert Follows(source, r.states[i], r.events[i], r.states[i + 1]);
    EventIsExplained(source, r.states[i], r.events[i], k);
  }

  // ---------------------------------------------------------------- reported success

  /** Event i commits the activation transaction of generation g. */
  predicate CommitsGeneration(r: Trace, i: nat, g: GenerationId)
    requires i < |r.events| && i < |r.states|
  {
    && r.events[i].WorkerMoves?
    && r.events[i].move.Publication?
    && r.events[i].move.publish.CommitActivation?
    && r.events[i].w in r.states[i].workers
    && r.states[i].workers[r.events[i].w].Activating?
    && r.states[i].workers[r.events[i].w].attempt.Generation() == g
  }

  lemma EventPublishesOnlyByCommit(source: TokenSource, s: State, e: Event, g: GenerationId)
    requires EventEnabled(s, e) && g in Next(source, s, e).shared.published && g !in s.shared.published
    ensures e.WorkerMoves? && e.move.Publication? && e.move.publish.CommitActivation?
    ensures s.workers[e.w].Activating? && s.workers[e.w].attempt.Generation() == g
  {
    if e.WorkerMoves? && e.move.Publication? {
      assert Act(source, e.w, s.shared, s.workers[e.w], e.move) == DoPublish(s.shared, s.workers[e.w], e.move.publish);
    } else if e.WorkerMoves? && WritesDocument(e.move) {
      OtherWritersPublishNothing(source, e.w, s.shared, s.workers[e.w], e.move);
    }
  }

  lemma OtherWritersPublishNothing(source: TokenSource, w: nat, sh: Shared, x: Worker, move: Move)
    requires Enabled(sh, x, move) && WritesDocument(move) && !move.Publication?
    ensures Act(source, w, sh, x, move).0.published == sh.published
  {
    if move.Preparation? {
      assert Act(source, w, sh, x, move) == DoPrepare(sh, x, move.prepare);
    } else if move.Recovery? {
      assert Act(source, w, sh, x, move) == DoRecover(sh, x, move.recover);
    } else {
      assert Act(source, w, sh, x, move) == DoSubmit(source, w, sh, x, move.submission);
    }
  }

  lemma {:induction false} PublishedMeansCommitted(source: TokenSource, r: Trace, j: nat, g: GenerationId)
    requires IsRun(source, r) && j < |r.states| && g in r.states[j].shared.published
    ensures exists i: nat :: i < j && CommitsGeneration(r, i, g)
  {
    if j > 0 {
      assert Follows(source, r.states[j - 1], r.events[j - 1], r.states[j]);
      if g in r.states[j - 1].shared.published {
        PublishedMeansCommitted(source, r, j - 1, g);
      } else {
        EventPublishesOnlyByCommit(source, r.states[j - 1], r.events[j - 1], g);
        assert CommitsGeneration(r, j - 1, g);
      }
    }
  }

  /** An attempt goes on to report success, directly or after reconciliation, only when the
      activation transaction of its generation committed at an earlier event. */
  lemma SuccessMeansCommitted(source: TokenSource, r: Trace, j: nat, w: nat)
    requires IsRun(source, r) && j < |r.states| && w in r.states[j].workers && r.states[j].workers[w].Superseding?
    ensures exists i: nat :: i < j && CommitsGeneration(r, i, r.states[j].workers[w].attempt.Generation())
  {
    RunKeepsBase(source, r, j);
    assert WorkerBase(r.states[j].shared, r.states[j].workers[w]);
    PublishedMeansCommitted(source, r, j, r.states[j].workers[w].attempt.Generation());
  }
}
