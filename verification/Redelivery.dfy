/** Where the hypothesis of the publication theorems comes from with either lease repository:
    a message that is delivered once makes one attempt. */
module Redelivery {
  import opened Entities
  import opened ControlTable
  import opened Protocol
  import opened DocumentHistory
  import opened PublicationTheorems
  import ProtocolInvariant

  /** What a queue message says. */
  datatype Message = Message(tenant: string, document: string, job: string)

  function MessageOf(c: Command): Message {
    Message(c.tenant, c.document, c.job)
  }

  /** The message from which a generation was built. */
  function MessageBehind(g: GenerationId): Message {
    Message(g.fingerprint.tenant, g.fingerprint.document, g.job)
  }

  /** No two workers of the run, up to event n, take up the same message.  Submissions may be
      repeated at will, and jobs of different tenants may share an id. */
  predicate NoRedelivery(r: Trace, n: nat)
    requires n <= |r.events|
  {
    forall i, j :: 0 <= i < j < n && r.events[i].StartIngestion? && r.events[j].StartIngestion? ==>
      MessageOf(r.events[i].command) != MessageOf(r.events[j].command)
  }

  predicate BeforeItsLease(x: Worker) {
    x.Starting? || x.Looking? || x.Acquiring?
  }

  predicate StartedAs(r: Trace, n: nat, w: nat, m: Message)
    requires n <= |r.events|
  {
    exists k :: 0 <= k < n && r.events[k].StartIngestion? && r.events[k].w == w && MessageOf(r.events[k].command) == m
  }

  /** A worker before its lease was started with its message, from which nothing was built,
      and the document it looks at is the one the message names. */
  predicate WorkerFresh(r: Trace, n: nat, w: nat)
    requires n <= |r.events| && n < |r.states|
  {
    w in r.states[n].workers && BeforeItsLease(r.states[n].workers[w]) ==>
      var x := r.states[n].workers[w];
      && StartedAs(r, n, w, MessageOf(x.command))
      && (!x.Starting? ==> x.document.Key() == DocumentKey(x.command.tenant, x.command.document))
      && forall g :: g in r.states[n].shared.attempts ==> MessageBehind(g) != MessageOf(x.command)
  }

  /** Every attempt was made by a worker that had been started with its message. */
  predicate AttemptExplained(r: Trace, n: nat, g: GenerationId)
    requires n <= |r.events| && n < |r.states|
  {
    g in r.states[n].shared.attempts ==> StartedAs(r, n, r.states[n].shared.attempts[g], MessageBehind(g))
  }

  ghost predicate AllFresh(r: Trace, n: nat)
    requires n <= |r.events| && n < |r.states|
  {
    (forall w :: WorkerFresh(r, n, w)) && (forall g :: AttemptExplained(r, n, g))
  }

  lemma StartedEarlier(r: Trace, n: nat, w: nat, m: Message)
    requires n < |r.events| && StartedAs(r, n, w, m)
    ensures StartedAs(r, n + 1, w, m)
  {
    var k :| 0 <= k < n && r.events[k].StartIngestion? && r.events[k].w == w && MessageOf(r.events[k].command) == m;
  }

  lemma StartIsFresh(source: TokenSource, r: Trace, n: nat)
    requires IsRun(source, r) && n < |r.events| && AllFresh(r, n) && NoRedelivery(r, n + 1)
    requires r.events[n].StartIngestion?
    ensures AllFresh(r, n + 1)
  {
    var m := n + 1;
    assert Follows(source, r.states[n], r.events[n], r.states[m]);
    var message := MessageOf(r.events[n].command);
    assert StartedAs(r, m, r.events[n].w, message);
    forall g ensures AttemptExplained(r, m, g) {
      assert AttemptExplained(r, n, g);
      if g in r.states[n].shared.attempts {
        StartedEarlier(r, n, r.states[n].shared.attempts[g], MessageBehind(g));
      }
    }
    forall g | g in r.states[n].shared.attempts ensures MessageBehind(g) != message {
      assert AttemptExplained(r, n, g);
      var k :| 0 <= k < n && r.events[k].StartIngestion? && MessageOf(r.events[k].command) == MessageBehind(g);
    }
    forall w ensures WorkerFresh(r, m, w) {
      assert WorkerFresh(r, n, w);
      if w in r.states[n].workers && BeforeItsLease(r.states[n].workers[w]) {
        StartedEarlier(r, n, w, MessageOf(r.states[n].workers[w].command));
      }
    }
  }

  /** A step of a worker: who is before its lease afterwards was so before, with the same
      message and, from then on, the document that the message names. */
  predicate KeepsItsMessage(x: Worker, x': Worker) {
    BeforeItsLease(x') ==>
      && BeforeItsLease(x) && x'.command == x.command
      && (!x'.Starting? ==>
            || x'.document.Key() == DocumentKey(x'.command.tenant, x'.command.document)
            || (!x.Starting? && x'.document == x.document))
  }

  lemma BeginningKeepsMessage(source: TokenSource, w: nat, sh: Shared, x: Worker, step: Begin)
    requires CanBegin(sh, x, step) && SharedBase(sh)
    ensures KeepsItsMessage(x, DoBegin(source, w, sh, x, step).1)
  {
    if step.ReadDocument? { assert DocumentBase(sh, DocumentKey(x.command.tenant, x.command.document)); }
  }

  lemma SubmissionTakesUpNoMessage(source: TokenSource, w: nat, sh: Shared, x: Worker, step: Submission)
    requires CanSubmit(sh, x, step)
    ensures !BeforeItsLease(DoSubmit(source, w, sh, x, step).1)
  {
  }

  lemma LeavingKeepsMessage(sh: Shared, x: Worker, step: Leave)
    requires CanLeave(sh, x, step)
    ensures KeepsItsMessage(x, DoLeave(sh, x, step).1)
  {
    var x' := DoLeave(sh, x, step).1;
    assert x' == x || x'.Ended?;
  }

  lemma MoveKeepsMessage(source: TokenSource, w: nat, sh: Shared, x: Worker, move: Move)
    requires Enabled(sh, x, move) && SharedBase(sh)
    ensures KeepsItsMessage(x, Act(source, w, sh, x, move).1)
  {
    if !InsideAttempt(move) {
      match move
      case Beginning(step) => BeginningKeepsMessage(source, w, sh, x, step);
      case Submitting(step) => SubmissionTakesUpNoMessage(source, w, sh, x, step);
      case Leaving(step) => LeavingKeepsMessage(sh, x, step);
    }
  }

  lemma BeginningAddsItsAttempt(source: TokenSource, w: nat, sh: Shared, x: Worker, step: Begin)
    requires CanBegin(sh, x, step)
    ensures var r := DoBegin(source, w, sh, x, step);
            if step.Acquire? && !step.lost
            then r.0.attempts == sh.attempts[NextAttempt(source, sh, x, step.now).Generation() := w] && r.1.Leased()
            else r.0.attempts == sh.attempts
  {
  }

  lemma SubmissionAddsNoAttempt(source: TokenSource, w: nat, sh: Shared, x: Worker, step: Submission)
    requires CanSubmit(sh, x, step)
    ensures DoSubmit(source, w, sh, x, step).0.attempts == sh.attempts
  {
  }

  /** What a move adds to the attempts. */
  lemma MoveAddsItsAttempt(source: TokenSource, w: nat, sh: Shared, x: Worker, move: Move)
    requires Enabled(sh, x, move)
    ensures Act(source, w, sh, x, move).0.attempts ==
              if BeginsAttempt(move) then sh.attempts[NextAttempt(source, sh, x, move.begin.now).Generation() := w]
              else sh.attempts
    ensures BeginsAttempt(move) ==> !BeforeItsLease(Act(source, w, sh, x, move).1)
  {
    if move.Beginning? {
      BeginningAddsItsAttempt(source, w, sh, x, move.begin);
    } else if move.Submitting? {
      SubmissionAddsNoAttempt(source, w, sh, x, move.submission);
    }
  }

  lemma DifferentWorkersDifferentMessages(r: Trace, n: nat, v: nat, w: nat, a: Message, b: Message)
    requires n <= |r.events| && NoRedelivery(r, n) && v != w && StartedAs(r, n, v, a) && StartedAs(r, n, w, b)
    ensures a != b
  {
    var i :| 0 <= i < n && r.events[i].StartIngestion? && r.events[i].w == v && MessageOf(r.events[i].command) == a;
    var j :| 0 <= j < n && r.events[j].StartIngestion? && r.events[j].w == w && MessageOf(r.events[j].command) == b;
    assert i != j;
  }

  /** One worker moved and possibly began its attempt, which builds generation g. */
  lemma ChangeIsFresh(r: Trace, n: nat, w: nat, x': Worker, begins: bool, g: GenerationId)
    requires n < |r.events| && n + 1 < |r.states| && AllFresh(r, n) && NoRedelivery(r, n + 1)
    requires w in r.states[n].workers && r.states[n + 1].workers == r.states[n].workers[w := x']
    requires KeepsItsMessage(r.states[n].workers[w], x')
    requires begins ==> && BeforeItsLease(r.states[n].workers[w]) && !BeforeItsLease(x')
                        && MessageBehind(g) == MessageOf(r.states[n].workers[w].command)
    requires r.states[n + 1].shared.attempts ==
               if begins then r.states[n].shared.attempts[g := w] else r.states[n].shared.attempts
    ensures AllFresh(r, n + 1)
  {
    var m, s, x := n + 1, r.states[n], r.states[n].workers[w];
    assert WorkerFresh(r, n, w);
    forall p ensures AttemptExplained(r, m, p) {
      assert AttemptExplained(r, n, p);
      if p in s.shared.attempts {
        StartedEarlier(r, n, s.shared.attempts[p], MessageBehind(p));
      }
      if begins {
        StartedEarlier(r, n, w, MessageOf(x.command));
      }
    }
    forall v ensures WorkerFresh(r, m, v) {
      assert WorkerFresh(r, n, v);
      if v in s.workers && BeforeItsLease(s.workers[v]) {
        StartedEarlier(r, n, v, MessageOf(s.workers[v].command));
        if v != w && begins {
          DifferentWorkersDifferentMessages(r, n, v, w, MessageOf(s.workers[v].command), MessageOf(x.command));
        }
      }
    }
  }

  lemma MoveIsFresh(source: TokenSource, r: Trace, n: nat)
    requires IsRun(source, r) && n < |r.events| && AllFresh(r, n) && NoRedelivery(r, n + 1) && r.events[n].WorkerMoves?
    ensures AllFresh(r, n + 1) && FreshGeneration(source, r.states[n], r.events[n])
  {
    RunKeepsBase(source, r, n);
    assert Follows(source, r.states[n], r.events[n], r.states[n + 1]);
    var s, w, move := r.states[n], r.events[n].w, r.events[n].move;
    var x := s.workers[w];
    MoveKeepsMessage(source, w, s.shared, x, move);
    MoveAddsItsAttempt(source, w, s.shared, x, move);
    var x' := r.states[n + 1].workers[w];
    if BeginsAttempt(move) {
      assert WorkerFresh(r, n, w);
      ChangeIsFresh(r, n, w, x', true, NextAttempt(source, s.shared, x, move.begin.now).Generation());
    } else {
      ChangeIsFresh(r, n, w, x', false, GenerationId(Fingerprint("", "", "", "", ""), "", 0));
    }
  }

  lemma OtherIsFresh(source: TokenSource, r: Trace, n: nat)
    requires IsRun(source, r) && n < |r.events| && AllFresh(r, n)
    requires r.events[n].OutsideActs? || r.events[n].StartSubmission?
    ensures AllFresh(r, n + 1)
  {
    var m := n + 1;
    assert Follows(source, r.states[n], r.events[n], r.states[m]);
    forall g ensures AttemptExplained(r, m, g) {
      assert AttemptExplained(r, n, g);
      if g in r.states[n].shared.attempts {
        StartedEarlier(r, n, r.states[n].shared.attempts[g], MessageBehind(g));
      }
    }
    forall w ensures WorkerFresh(r, m, w) {
      assert WorkerFresh(r, n, w);
      if w in r.states[n].workers && BeforeItsLease(r.states[n].workers[w]) {
        StartedEarlier(r, n, w, MessageOf(r.states[n].workers[w].command));
      }
    }
  }

  lemma {:induction false} RunIsFresh(source: TokenSource, r: Trace, n: nat)
    requires IsRun(source, r) && n <= |r.events| && NoRedelivery(r, n)
    ensures AllFresh(r, n) && NoGenerationTwice(source, r, n)
  {
    if n == 0 {
      assert forall w :: WorkerFresh(r, 0, w);
      assert forall g :: AttemptExplained(r, 0, g);
    } else {
      RunIsFresh(source, r, n - 1);
      assert Follows(source, r.states[n - 1], r.events[n - 1], r.states[n]);
      if r.events[n - 1].StartIngestion? {
        StartIsFresh(source, r, n - 1);
      } else if r.events[n - 1].WorkerMoves? {
        MoveIsFresh(source, r, n - 1);
      } else {
        OtherIsFresh(source, r, n - 1);
      }
      assert FreshGeneration(source, r.states[n - 1], r.events[n - 1]);
    }
  }

  /** Without redeliveries the publication theorems hold with both lease repositories, the
      DynamoDB one included, however often its tokens restart. */
  lemma WithoutRedeliveryTheIndexIsComplete(source: TokenSource, r: Trace, i: nat, k: DocumentKey)
    requires IsRun(source, r) && i <= |r.events| && NoRedelivery(r, i)
    requires var t := r.states[i].shared.table; k in t.documents && t.documents[k].activeGeneration.Some?
    ensures ProtocolInvariant.Complete(r.states[i].shared, r.states[i].shared.table.documents[k].activeGeneration.value)
  {
    RunIsFresh(source, r, i);
    ActiveGenerationIsComplete(source, r, i, k);
  }
}
