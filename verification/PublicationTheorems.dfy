/** What holds over every run in which no two attempts build a generation of one id, that is,
    no job is worked on twice for one document version, one pipeline and one fencing token.
    Nothing is asked of submissions, nor of jobs that differ. */
module PublicationTheorems {
  import opened Entities
  import opened ControlTable
  import opened Protocol
  import opened ProtocolInvariant
  import opened ProtocolSteps
  import opened DocumentHistory
  import JobCoherence

  /** The hypothesis of this module, up to event n. */
  predicate NoGenerationTwice(source: TokenSource, r: Trace, n: nat)
    requires IsRun(source, r) && n <= |r.events|
  {
    forall i :: 0 <= i < n ==> FreshGeneration(source, r.states[i], r.events[i])
  }

  predicate FreshGeneration(source: TokenSource, s: State, e: Event) {
    EventEnabled(s, e) && NonRepeating(source, s, e)
  }

  lemma EventKeepsInv(source: TokenSource, s: State, e: Event)
    requires Inv(s) && EventEnabled(s, e) && NonRepeating(source, s, e)
    ensures Inv(Next(source, s, e))
    ensures e.WorkerMoves? ==> Guarantee(s.shared, Next(source, s, e).shared, e.w)
  {
    var s' := Next(source, s, e);
    match e {
      case WorkerMoves(w, move) =>
        MoveIsGood(source, w, s.shared, s.workers[w], move);
        forall v | v in s'.workers && v != w ensures WorkerInv(s'.shared, v, s'.workers[v]) {
          WorkerInvIsStable(s.shared, s'.shared, w, v, s.workers[v]);
        }
      case OutsideActs(o) => OutsideKeepsInv(s, o);
      case _ =>
    }
  }

  lemma OutsideKeepsInv(s: State, o: Outside)
    requires Inv(s) && OutsideEnabled(s.shared, o)
    ensures Inv(s.(shared := ActOutside(s.shared, o)))
  {
    var sh' := ActOutside(s.shared, o);
    forall v | v in s.workers ensures WorkerInv(sh', v, s.workers[v]) {
      OutsideIsGood(s.shared, o, v + 1);
      WorkerInvIsStable(s.shared, sh', v + 1, v, s.workers[v]);
    }
    OutsideIsGood(s.shared, o, 0);
  }

  lemma InitialInv()
    ensures Inv(INITIAL_STATE)
  {
    var sh := INITIAL_STATE.shared;
    JobCoherence.EmptyIsCoherent();
    assert forall k :: RunningJobInv(sh, k);
    assert forall k :: LeaseInv(sh, k);
    assert forall k :: DocumentInv(sh, k);
    assert forall g :: PublishedInv(sh, g);
  }

  lemma {:induction false} RunKeepsInv(source: TokenSource, r: Trace, i: nat)
    requires IsRun(source, r) && i <= |r.events| && NoGenerationTwice(source, r, i)
    ensures Inv(r.states[i])
  {
    if i == 0 {
      InitialInv();
    } else {
      RunKeepsInv(source, r, i - 1);
      assert Follows(source, r.states[i - 1], r.events[i - 1], r.states[i]);
      assert FreshGeneration(source, r.states[i - 1], r.events[i - 1]);
      EventKeepsInv(source, r.states[i - 1], r.events[i - 1]);
    }
  }

  // ---------------------------------------------------------------- the active generation

  /** In every interleaving the generation that a document points to is recorded as active
      and has all its chunks and all its vectors: no cleanup and no supersession ever
      deletes the active generation. */
  lemma ActiveGenerationIsComplete(source: TokenSource, r: Trace, i: nat, k: DocumentKey)
    requires IsRun(source, r) && i <= |r.events| && NoGenerationTwice(source, r, i)
    requires var t := r.states[i].shared.table; k in t.documents && t.documents[k].activeGeneration.Some?
    ensures Complete(r.states[i].shared, r.states[i].shared.table.documents[k].activeGeneration.value)
  {
    RunKeepsInv(source, r, i);
    assert DocumentInv(r.states[i].shared, k);
  }

  // ---------------------------------------------------------------- displaced attempts

  /** An attempt that went through claim and whose fingerprint now belongs to another attempt. */
  predicate Displaced(sh: Shared, x: Worker) {
    && x.Leased() && !x.Claiming?
    && MarkerKeyOf(x.attempt.Fingerprint()) in sh.table.markers
    && var m := sh.table.markers[MarkerKeyOf(x.attempt.Fingerprint())];
    !(m.job == x.attempt.command.job && m.token == x.attempt.token)
  }

  /** Would this move commit a save or an activation under the attempt's token? */
  predicate CommitsForAttempt(sh: Shared, x: Worker, move: Move)
    requires Enabled(sh, x, move)
  {
    || (move.Publication? && move.publish.CommitActivation?)
    || (move.Recovery? && move.recover.SaveFailure?
        && SaveAllowed(sh.table, FailedJob(x.attempt, move.recover.error, move.recover.at)))
  }

  lemma DisplacedCannotActivate(sh: Shared, x: Worker)
    requires Displaced(sh, x) && x.Activating?
    ensures !Activatable(sh.table, x.attempt, x.candidate)
  {}

  lemma DisplacedCannotSave(sh: Shared, x: Worker, error: string, at: int)
    requires Displaced(sh, x)
    ensures !SaveAllowed(sh.table, FailedJob(x.attempt, error, at))
  {}

  lemma DisplacedCannotCommit(sh: Shared, x: Worker, move: Move)
    requires Displaced(sh, x) && Enabled(sh, x, move)
    ensures !CommitsForAttempt(sh, x, move)
  {
    if move.Publication? && x.Activating? {
      DisplacedCannotActivate(sh, x);
    } else if move.Recovery? && move.recover.SaveFailure? {
      DisplacedCannotSave(sh, x, move.recover.error, move.recover.at);
    }
  }

  lemma DisplacedPublishMoves(sh: Shared, x: Worker, step: Publish)
    requires Displaced(sh, x) && CanPublish(sh, x, step)
    ensures DoPublish(sh, x, step).0 == sh && !DoPublish(sh, x, step).1.Claiming?
  {
    if x.Activating? { DisplacedCannotActivate(sh, x); }
  }

  lemma DisplacedRecoverMoves(sh: Shared, x: Worker, step: Recover)
    requires Displaced(sh, x) && CanRecover(sh, x, step)
    ensures var r := DoRecover(sh, x, step); Displaced(r.0, r.1)
  {
    if step.SaveFailure? { DisplacedCannotSave(sh, x, step.error, step.at); }
  }

  lemma DisplacedSupersedeMoves(sh: Shared, x: Worker, step: Supersede)
    requires Displaced(sh, x) && CanSupersede(sh, x, step)
    ensures var r := DoSupersede(sh, x, step); Displaced(r.0, r.1)
  {
  }

  lemma DisplacedLeaveMoves(sh: Shared, x: Worker, step: Leave)
    requires Displaced(sh, x) && CanLeave(sh, x, step)
    ensures var r := DoLeave(sh, x, step); !r.1.Leased() || Displaced(r.0, r.1)
  {
    var r := DoLeave(sh, x, step);
    assert r.0.table.markers == sh.table.markers && (r.1 == x || r.1.Ended?);
  }

  lemma DisplacedEarlyMoves(sh: Shared, x: Worker, move: Move)
    requires Displaced(sh, x) && Enabled(sh, x, move) && (move.Preparation? || move.Construction? || move.Publication?)
    ensures var r := Act(DurableCounter, 0, sh, x, move); !r.1.Leased() || Displaced(r.0, r.1)
  {
    var r := Act(DurableCounter, 0, sh, x, move);
    match move {
      case Preparation(step) => assert r == DoPrepare(sh, x, step);
      case Construction(step) => assert r == DoBuild(sh, x, step);
      case Publication(step) => DisplacedPublishMoves(sh, x, step);
    }
    assert r.0.table.markers == sh.table.markers;
  }

  /** A displaced worker's own steps leave its marker alone. */
  lemma DisplacedMoves(source: TokenSource, w: nat, sh: Shared, x: Worker, move: Move)
    requires Displaced(sh, x) && Enabled(sh, x, move)
    ensures var r := Act(source, w, sh, x, move); !r.1.Leased() || Displaced(r.0, r.1)
  {
    match move
    case Recovery(step) => DisplacedRecoverMoves(sh, x, step);
    case Supersession(step) => DisplacedSupersedeMoves(sh, x, step);
    case Leaving(step) => DisplacedLeaveMoves(sh, x, step);
    case _ => DisplacedEarlyMoves(sh, x, move);
  }

  lemma DisplacedByOthers(sh: Shared, sh': Shared, w: nat, v: nat, x: Worker)
    requires Guarantee(sh, sh', w) && v != w && WorkerInv(sh, v, x) && Displaced(sh, x)
    ensures Displaced(sh', x)
  {
    var k := MarkerKeyOf(x.attempt.Fingerprint());
    assert MarkerKept(sh, sh', w, k);
    assert AttemptKept(sh, sh', x.attempt.Generation());
  }

  lemma OwnMoveKeepsDisplaced(source: TokenSource, s: State, w: nat, move: Move)
    requires w in s.workers && Displaced(s.shared, s.workers[w]) && EventEnabled(s, WorkerMoves(w, move))
    ensures var s' := Next(source, s, WorkerMoves(w, move));
            w in s'.workers && (!s'.workers[w].Leased() || Displaced(s'.shared, s'.workers[w]))
  {
    DisplacedMoves(source, w, s.shared, s.workers[w], move);
  }

  lemma OtherMoveKeepsDisplaced(source: TokenSource, s: State, v: nat, move: Move, w: nat)
    requires Inv(s) && EventEnabled(s, WorkerMoves(v, move)) && NonRepeating(source, s, WorkerMoves(v, move))
    requires v != w && w in s.workers && Displaced(s.shared, s.workers[w])
    ensures var s' := Next(source, s, WorkerMoves(v, move));
            w in s'.workers && s'.workers[w] == s.workers[w] && Displaced(s'.shared, s'.workers[w])
  {
    MoveIsGood(source, v, s.shared, s.workers[v], move);
    DisplacedByOthers(s.shared, Act(source, v, s.shared, s.workers[v], move).0, v, w, s.workers[w]);
  }

  lemma EventKeepsDisplaced(source: TokenSource, s: State, e: Event, w: nat)
    requires Inv(s) && EventEnabled(s, e) && NonRepeating(source, s, e)
    requires w in s.workers && Displaced(s.shared, s.workers[w])
    ensures var s' := Next(source, s, e);
            w in s'.workers && (!s'.workers[w].Leased() || Displaced(s'.shared, s'.workers[w]))
  {
    match e
    case WorkerMoves(v, move) =>
      if v == w {
        OwnMoveKeepsDisplaced(source, s, w, move);
      } else {
        OtherMoveKeepsDisplaced(source, s, v, move, w);
      }
    case OutsideActs(o) =>
      OutsideIsGood(s.shared, o, w + 1);
      DisplacedByOthers(s.shared, ActOutside(s.shared, o), w + 1, w, s.workers[w]);
    case _ =>
  }

  /** A worker that left the protocol never holds a lease again. */
  lemma GoneStaysGone(source: TokenSource, s: State, e: Event, w: nat)
    requires EventEnabled(s, e) && w in s.workers && s.workers[w].Ended?
    ensures var s' := Next(source, s, e); w in s'.workers && s'.workers[w].Ended?
  {
    if e.WorkerMoves? && e.w == w {
      assert e.move.Leaving?;
    }
  }

  lemma LeavingTheLeaseEnds(source: TokenSource, w: nat, sh: Shared, x: Worker, move: Move)
    requires Enabled(sh, x, move) && x.Leased()
    ensures Act(source, w, sh, x, move).1.Leased() || Act(source, w, sh, x, move).1.Ended?
  {
    if move.Leaving? {
      assert Act(source, w, sh, x, move) == DoLeave(sh, x, move.leave);
    }
  }

  lemma {:induction false} DisplacedForGood(source: TokenSource, r: Trace, i: nat, j: nat, w: nat)
    requires IsRun(source, r) && i <= j <= |r.events| && NoGenerationTwice(source, r, j)
    requires w in r.states[i].workers && Displaced(r.states[i].shared, r.states[i].workers[w])
    ensures w in r.states[j].workers
    ensures r.states[j].workers[w].Ended? || Displaced(r.states[j].shared, r.states[j].workers[w])
    decreases j - i
  {
    if i < j {
      DisplacedForGood(source, r, i, j - 1, w);
      RunKeepsInv(source, r, j - 1);
      var s, e := r.states[j - 1], r.events[j - 1];
      assert Follows(source, s, e, r.states[j]);
      assert FreshGeneration(source, s, e);
      if s.workers[w].Ended? {
        GoneStaysGone(source, s, e, w);
      } else {
        EventKeepsDisplaced(source, s, e, w);
        if e.WorkerMoves? && e.w == w { LeavingTheLeaseEnds(source, w, s.shared, s.workers[w], e.move); }
      }
    }
  }

  /** Once another attempt's claim has displaced an attempt, no save and no activation by
      the displaced attempt commits, in any continuation. */
  lemma DisplacedAttemptNeverCommits(source: TokenSource, r: Trace, i: nat, j: nat, w: nat)
    requires IsRun(source, r) && i <= j < |r.events| && NoGenerationTwice(source, r, j)
    requires w in r.states[i].workers && Displaced(r.states[i].shared, r.states[i].workers[w])
    requires r.events[j].WorkerMoves? && r.events[j].w == w
    ensures EventEnabled(r.states[j], r.events[j])
    ensures !CommitsForAttempt(r.states[j].shared, r.states[j].workers[w], r.events[j].move)
  {
    DisplacedForGood(source, r, i, j, w);
    assert Follows(source, r.states[j], r.events[j], r.states[j + 1]);
    if !r.states[j].workers[w].Ended? {
      DisplacedCannotCommit(r.states[j].shared, r.states[j].workers[w], r.events[j].move);
    }
  }

  // ---------------------------------------------------------------- reconciliation

  lemma ReplacedForGood(source: TokenSource, r: Trace, i: nat, j: nat, g: GenerationId)
    requires IsRun(source, r) && i <= j < |r.states| && Replaced(r.states[i].shared, g)
    ensures var documents := r.states[j].shared.table.documents;
            DocumentKeyOf(g) in documents && documents[DocumentKeyOf(g)].activeGeneration != Some(g)
  {
    DocumentsMoveForward(source, r, i, j, DocumentKeyOf(g));
    RunKeepsBase(source, r, j);
    assert DocumentBase(r.states[j].shared, DocumentKeyOf(g));
  }

  /** If the activation of an attempt committed and its response was lost, and then a
      reconciliation read does not match, the generation has already been replaced and no
      later state points to it: deleting it is safe for ever. */
  lemma NegativeAnswerMeansReplaced(source: TokenSource, r: Trace, i: nat, j: nat, w: nat)
    requires IsRun(source, r) && i < j < |r.states| && NoGenerationTwice(source, r, i)
    requires r.events[i] == WorkerMoves(w, Publication(Reconcile))
    requires w in r.states[i].workers && r.states[i].workers[w].Reconciling? && r.states[i].workers[w].committed
    requires w in r.states[i + 1].workers && r.states[i + 1].workers[w].Cleaning?
    ensures var g := r.states[i].workers[w].attempt.Generation();
            && Replaced(r.states[i].shared, g)
            && DocumentKeyOf(g) in r.states[j].shared.table.documents
            && r.states[j].shared.table.documents[DocumentKeyOf(g)].activeGeneration != Some(g)
  {
    var s := r.states[i];
    var x := s.workers[w];
    var g := x.attempt.Generation();
    RunKeepsInv(source, r, i);
    assert Follows(source, s, r.events[i], r.states[i + 1]);
    assert WorkerInv(s.shared, w, x);
    assert DocumentInv(s.shared, x.attempt.document.Key());
    assert DocumentKeyOf(g) == x.attempt.document.Key();
    ReplacedForGood(source, r, i, j, g);
  }

  /** The converse: while a committed generation is not replaced, every one of the four
      reads matches, at whatever moment it is made. */
  lemma ReadsMatchUntilReplaced(source: TokenSource, r: Trace, i: nat, w: nat, stage: nat)
    requires IsRun(source, r) && i <= |r.events| && NoGenerationTwice(source, r, i)
    requires w in r.states[i].workers && r.states[i].workers[w].Reconciling? && r.states[i].workers[w].committed
    requires !Replaced(r.states[i].shared, r.states[i].workers[w].attempt.Generation())
    ensures ReadMatches(r.states[i].shared.table, r.states[i].workers[w].attempt,
                        r.states[i].workers[w].candidate, stage)
  {
    var x := r.states[i].workers[w];
    RunKeepsInv(source, r, i);
    assert WorkerInv(r.states[i].shared, w, x);
    assert DocumentKeyOf(x.attempt.Generation()) == x.attempt.document.Key();
  }
}
