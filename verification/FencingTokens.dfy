/** Where fencing tokens come from: the durable counter never repeats one, and the DynamoDB
    item repeats one exactly when the lease was released in between. */
module FencingTokens {
  import opened Entities
  import opened ControlTable
  import opened Protocol
  import opened ProtocolInvariant
  import opened DocumentHistory
  import opened PublicationTheorems
  import opened RunBuilding
  import TableHistory

  /** Every token granted for a key is at most the one granted last. */
  predicate Bounded(sh: Shared, g: Grant) {
    g in sh.grants ==> g.key in sh.latest && 1 <= g.token <= sh.latest[g.key]
  }

  /** What was granted at all was first granted 1. */
  predicate StartsAtOne(sh: Shared, key: LeaseKey) {
    key in sh.latest ==> Grant(key, 1) in sh.grants
  }

  /** An attempt carries a token that was granted. */
  predicate AttemptGranted(sh: Shared, g: GenerationId) {
    g in sh.attempts ==> Grant(LeaseKeyOf(g), g.token) in sh.grants
  }

  ghost predicate TokensInv(sh: Shared) {
    && (forall g :: Bounded(sh, g))
    && (forall k :: StartsAtOne(sh, k))
    && (forall g :: AttemptGranted(sh, g))
  }

  predicate TakesLease(e: Event) {
    e.WorkerMoves? && Grants(e.move)
  }

  /** The key whose lease an event takes. */
  function GrantedKey(s: State, e: Event): LeaseKey
    requires EventEnabled(s, e) && TakesLease(e)
  {
    s.workers[e.w].document.LeaseOf()
  }

  /** Event e grants no token that was granted before. */
  predicate FreshToken(source: TokenSource, s: State, e: Event) {
    && EventEnabled(s, e)
    && (TakesLease(e) ==>
          Grant(GrantedKey(s, e), NextToken(source, s.shared, GrantedKey(s, e))) !in s.shared.grants)
  }

  /** No token is granted twice for one key, whoever the owners are, up to event n. */
  predicate NoTokenTwice(source: TokenSource, r: Trace, n: nat)
    requires IsRun(source, r) && n <= |r.events|
  {
    forall i :: 0 <= i < n ==> FreshToken(source, r.states[i], r.events[i])
  }

  lemma SameGrants(sh: Shared, sh': Shared)
    requires TokensInv(sh) && SameHistory(sh, sh')
    ensures TokensInv(sh')
  {
    forall g ensures Bounded(sh', g) { assert Bounded(sh, g); }
    forall k ensures StartsAtOne(sh', k) { assert StartsAtOne(sh, k); }
    forall g ensures AttemptGranted(sh', g) { assert AttemptGranted(sh, g); }
  }

  lemma GrantStep(sh: Shared, key: LeaseKey, lease: Lease)
    requires TokensInv(sh) && lease.token == if key in sh.latest then sh.latest[key] + 1 else 1
    ensures TokensInv(GrantLease(sh, key, lease))
  {
    var sh' := GrantLease(sh, key, lease);
    forall g ensures Bounded(sh', g) { assert Bounded(sh, g); }
    forall k ensures StartsAtOne(sh', k) { assert StartsAtOne(sh, k); }
    forall g ensures AttemptGranted(sh', g) { assert AttemptGranted(sh, g); }
  }

  lemma BeginStep(sh: Shared, w: nat, a: Attempt)
    requires TokensInv(sh) && Grant(a.document.LeaseOf(), a.token) in sh.grants
    ensures TokensInv(Begun(sh, w, a))
  {
    var sh' := Begun(sh, w, a);
    forall g ensures Bounded(sh', g) { assert Bounded(sh, g); }
    forall k ensures StartsAtOne(sh', k) { assert StartsAtOne(sh, k); }
    forall g ensures AttemptGranted(sh', g) { assert AttemptGranted(sh, g); }
  }

  /** An event that takes a lease with the next larger token keeps the invariant. */
  lemma TakingKeepsTokens(source: TokenSource, s: State, e: Event)
    requires TokensInv(s.shared) && EventEnabled(s, e) && TakesLease(e)
    requires var key := GrantedKey(s, e);
             NextToken(source, s.shared, key) == if key in s.shared.latest then s.shared.latest[key] + 1 else 1
    ensures TokensInv(Next(source, s, e).shared)
  {
    var x := s.workers[e.w];
    var key := GrantedKey(s, e);
    var token := NextToken(source, s.shared, key);
    if e.move.Beginning? {
      var step := e.move.begin;
      var lease := Lease(x.command.job, token, x.command.execution, step.expiresAt);
      assert Next(source, s, e).shared == DoBegin(source, e.w, s.shared, x, step).0;
      GrantStep(s.shared, key, lease);
      BeginStep(GrantLease(s.shared, key, lease), e.w, NextAttempt(source, s.shared, x, step.now));
    } else {
      var step := e.move.submission;
      assert Next(source, s, e).shared == DoSubmit(source, e.w, s.shared, x, step).0;
      GrantStep(s.shared, key, Lease(SubmissionOwner(x.job), token, step.execution, step.expiresAt));
    }
  }

  lemma OtherEventsKeepTokens(source: TokenSource, s: State, e: Event)
    requires TokensInv(s.shared) && EventEnabled(s, e) && !TakesLease(e)
    ensures TokensInv(Next(source, s, e).shared)
  {
    SameGrants(s.shared, Next(source, s, e).shared);
  }

  lemma InitialTokens()
    ensures TokensInv(INITIAL_STATE.shared)
  {
    assert forall g :: Bounded(INITIAL_STATE.shared, g);
    assert forall k :: StartsAtOne(INITIAL_STATE.shared, k);
    assert forall g :: AttemptGranted(INITIAL_STATE.shared, g);
  }

  /** A token that was never granted makes a generation that no attempt has built. */
  lemma FreshTokensMakeFreshGenerations(source: TokenSource, s: State, e: Event)
    requires TokensInv(s.shared) && FreshToken(source, s, e)
    ensures FreshGeneration(source, s, e)
  {
    if e.WorkerMoves? && BeginsAttempt(e.move) {
      assert AttemptGranted(s.shared, NextAttempt(source, s.shared, s.workers[e.w], e.move.begin.now).Generation());
    }
  }

  // ---------------------------------------------------------------- the durable counter

  lemma {:induction false} CounterBoundsTokens(r: Trace, i: nat)
    requires IsRun(DurableCounter, r) && i <= |r.events|
    ensures TokensInv(r.states[i].shared)
  {
    if i == 0 {
      InitialTokens();
    } else {
      CounterBoundsTokens(r, i - 1);
      assert Follows(DurableCounter, r.states[i - 1], r.events[i - 1], r.states[i]);
      if TakesLease(r.events[i - 1]) {
        TakingKeepsTokens(DurableCounter, r.states[i - 1], r.events[i - 1]);
      } else {
        OtherEventsKeepTokens(DurableCounter, r.states[i - 1], r.events[i - 1]);
      }
    }
  }

  /** With a counter that survives release, no run grants a token twice: the hypothesis of
      the publication theorems always holds. */
  lemma DurableCounterNeverRepeats(r: Trace)
    requires IsRun(DurableCounter, r)
    ensures NoTokenTwice(DurableCounter, r, |r.events|) && NoGenerationTwice(DurableCounter, r, |r.events|)
  {
    forall i | 0 <= i < |r.events|
      ensures FreshToken(DurableCounter, r.states[i], r.events[i])
      ensures FreshGeneration(DurableCounter, r.states[i], r.events[i])
    {
      var s, e := r.states[i], r.events[i];
      assert Follows(DurableCounter, s, e, r.states[i + 1]);
      CounterBoundsTokens(r, i);
      if TakesLease(e) {
        assert Bounded(s.shared, Grant(GrantedKey(s, e), NextToken(DurableCounter, s.shared, GrantedKey(s, e))));
      }
      FreshTokensMakeFreshGenerations(DurableCounter, s, e);
    }
  }

  // ---------------------------------------------------------------- the DynamoDB item

  lemma ItemTokenIsFreshIff(s: State, e: Event)
    requires TokensInv(s.shared) && EventEnabled(s, e) && TakesLease(e) && LeaseInv(s.shared, GrantedKey(s, e))
    ensures var key := GrantedKey(s, e);
            FreshToken(RestartsAfterRelease, s, e) <==> (key in s.shared.table.leases || key !in s.shared.latest)
  {
    var key := GrantedKey(s, e);
    assert StartsAtOne(s.shared, key);
    assert Bounded(s.shared, Grant(key, NextToken(RestartsAfterRelease, s.shared, key)));
  }

  lemma {:induction false} ItemBoundsTokens(r: Trace, i: nat)
    requires IsRun(RestartsAfterRelease, r) && i <= |r.events| && NoTokenTwice(RestartsAfterRelease, r, i)
    ensures TokensInv(r.states[i].shared)
  {
    if i == 0 {
      InitialTokens();
    } else {
      ItemBoundsTokens(r, i - 1);
      TableHistory.RunKeepsLedger(RestartsAfterRelease, r, i - 1);
      var s, e := r.states[i - 1], r.events[i - 1];
      assert Follows(RestartsAfterRelease, s, e, r.states[i]);
      assert FreshToken(RestartsAfterRelease, s, e);
      if TakesLease(e) {
        assert LeaseInv(s.shared, GrantedKey(s, e));
        ItemTokenIsFreshIff(s, e);
        TakingKeepsTokens(RestartsAfterRelease, s, e);
      } else {
        OtherEventsKeepTokens(RestartsAfterRelease, s, e);
      }
    }
  }

  /** The DynamoDB repository grants a token that was never granted before exactly when the
      lease item is still stored, or no lease was ever granted for the key. */
  lemma DynamoRepeatsExactlyAfterRelease(r: Trace, i: nat)
    requires IsRun(RestartsAfterRelease, r) && i < |r.events| && NoTokenTwice(RestartsAfterRelease, r, i)
    requires TakesLease(r.events[i])
    ensures EventEnabled(r.states[i], r.events[i])
    ensures var key := GrantedKey(r.states[i], r.events[i]);
            NoTokenTwice(RestartsAfterRelease, r, i + 1) <==>
              (key in r.states[i].shared.table.leases || key !in r.states[i].shared.latest)
  {
    assert Follows(RestartsAfterRelease, r.states[i], r.events[i], r.states[i + 1]);
    TableHistory.RunKeepsLedger(RestartsAfterRelease, r, i);
    ItemBoundsTokens(r, i);
    assert LeaseInv(r.states[i].shared, GrantedKey(r.states[i], r.events[i]));
    ItemTokenIsFreshIff(r.states[i], r.events[i]);
    assert NoTokenTwice(RestartsAfterRelease, r, i + 1) <==> FreshToken(RestartsAfterRelease, r.states[i], r.events[i]);
  }

  lemma {:induction false} TokensMakeGenerations(r: Trace, n: nat)
    requires IsRun(RestartsAfterRelease, r) && n <= |r.events| && NoTokenTwice(RestartsAfterRelease, r, n)
    ensures NoGenerationTwice(RestartsAfterRelease, r, n)
  {
    forall i | 0 <= i < n ensures FreshGeneration(RestartsAfterRelease, r.states[i], r.events[i]) {
      ItemBoundsTokens(r, i);
      assert FreshToken(RestartsAfterRelease, r.states[i], r.events[i]);
      FreshTokensMakeFreshGenerations(RestartsAfterRelease, r.states[i], r.events[i]);
    }
  }

  // ---------------------------------------------------------------- a concrete repetition

  /** The first submission has released its lease, the second one is about to ask for its own. */
  lemma SubmitTwice(d: Document) returns (s: State)
    requires New(d)
    ensures Leads(RestartsAfterRelease, INITIAL_STATE, s)
    ensures 1 in s.workers && s.workers[1] == LeasingSubmission(d, "job")
    ensures s.shared.table.leases == map[] && Grant(d.LeaseOf(), 1) in s.shared.grants
  {
    s := Enroll(RestartsAfterRelease, d);
    s := AskForSubmission(RestartsAfterRelease, INITIAL_STATE, s, 0, d);
    s := TakeForSubmission(RestartsAfterRelease, INITIAL_STATE, s, 0, map[], d);
    s := ReleaseForSubmission(RestartsAfterRelease, INITIAL_STATE, s, 0, map[], Uploading(d, "job", 1));
    s := AskForSubmission(RestartsAfterRelease, INITIAL_STATE, s, 1, d);
  }

  /** Two submissions of one document in a row: with the DynamoDB repository both are granted
      token 1. */
  lemma DynamoRepeatsAToken(d: Document) returns (r: Trace)
    requires New(d)
    ensures IsRun(RestartsAfterRelease, r) && !NoTokenTwice(RestartsAfterRelease, r, |r.events|)
  {
    var s := SubmitTwice(d);
    r := RunTo(RestartsAfterRelease, s);
    var n := |r.events|;
    ExtendIsRun(RestartsAfterRelease, r, WorkerMoves(1, SUBMIT));
    r := Extend(RestartsAfterRelease, r, WorkerMoves(1, SUBMIT));
    assert r.states[n] == s && !FreshToken(RestartsAfterRelease, r.states[n], r.events[n]);
  }
}
