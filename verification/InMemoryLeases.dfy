/** The in-memory lease repository (ingestion_coordination_fakes.py): an object with three
    dictionaries, the effect of each call as a function, and what every sequence of calls
    under a nondecreasing clock guarantees. */
module InMemoryLeases {
  import opened Entities

  datatype IngestionLease = IngestionLease(key: LeaseKey, owner: string, token: nat, expiresAt: int)

  datatype LeaseClaim = LeaseClaim(lease: IngestionLease, acquired: bool)

  /** The three dictionaries. */
  datatype Store = Store(
    leases: map<LeaseKey, IngestionLease>,
    tokens: map<LeaseKey, nat>,
    executions: map<LeaseKey, string>)

  datatype Call =
    | Acquire(key: LeaseKey, owner: string, requested: Option<string>, expiresAt: int, now: int)
    | Renew(key: LeaseKey, owner: string, token: nat, execution: string, expiresAt: int, now: int)
    | Release(lease: IngestionLease)

  predicate Free(s: Store, key: LeaseKey, now: int) {
    key in s.leases ==> s.leases[key].expiresAt <= now
  }

  function NextToken(s: Store, key: LeaseKey): nat {
    (if key in s.tokens then s.tokens[key] else 0) + 1
  }

  /** execution_token or owner_token: an empty token counts as none. */
  function Execution(requested: Option<string>, owner: string): string {
    if requested.Some? && requested.value != "" then requested.value else owner
  }

  /** Does the call find the lease that it names, held under its own tokens? */
  predicate Holds(s: Store, c: Call) {
    match c
    case Acquire(key, _, _, _, now) => false
    case Renew(key, owner, token, execution, _, now) =>
      && key in s.leases
      && s.leases[key].owner == owner
      && s.leases[key].token == token
      && key in s.executions && s.executions[key] == execution
      && s.leases[key].expiresAt > now
    case Release(lease) =>
      && lease.key in s.leases
      && s.leases[lease.key].owner == lease.owner
      && s.leases[lease.key].token == lease.token
  }

  function Effect(s: Store, c: Call): Store {
    match c
    case Acquire(key, owner, requested, expiresAt, now) =>
      if !Free(s, key, now) then s
      else Store(s.leases[key := IngestionLease(key, owner, NextToken(s, key), expiresAt)],
                 s.tokens[key := NextToken(s, key)],
                 s.executions[key := Execution(requested, owner)])
    case Renew(key, _, _, _, expiresAt, _) =>
      if !Holds(s, c) then s else s.(leases := s.leases[key := s.leases[key].(expiresAt := expiresAt)])
    case Release(lease) =>
      if !Holds(s, c) then s else s.(leases := s.leases - {lease.key}, executions := s.executions - {lease.key})
  }

  class InMemoryDocumentIngestionLeaseRepository {
    var leases: map<LeaseKey, IngestionLease>
    var fencingTokens: map<LeaseKey, nat>
    var executionTokens: map<LeaseKey, string>

    ghost function Contents(): Store
      reads this
    {
      Store(leases, fencingTokens, executionTokens)
    }

    constructor ()
      ensures Contents() == Store(map[], map[], map[])
    {
      leases, fencingTokens, executionTokens := map[], map[], map[];
    }

    method Acquire(key: LeaseKey, owner: string, requested: Option<string>, expiresAt: int, now: int)
      returns (claim: LeaseClaim)
      modifies this
      ensures Contents() == Effect(old(Contents()), Call.Acquire(key, owner, requested, expiresAt, now))
      ensures claim.acquired == Free(old(Contents()), key, now)
      ensures claim.acquired ==> claim.lease.token == NextToken(old(Contents()), key) && claim.lease.owner == owner
      ensures key in leases && claim.lease == leases[key]
    {
      if key in leases && leases[key].expiresAt > now {
        return LeaseClaim(leases[key], false);
      }
      var token := (if key in fencingTokens then fencingTokens[key] else 0) + 1;
      fencingTokens := fencingTokens[key := token];
      var lease := IngestionLease(key, owner, token, expiresAt);
      leases := leases[key := lease];
      executionTokens := executionTokens[key := Execution(requested, owner)];
      claim := LeaseClaim(lease, true);
    }

    method Renew(key: LeaseKey, owner: string, token: nat, execution: string, expiresAt: int, now: int)
      returns (renewed: bool)
      modifies this`leases
      ensures Contents() == Effect(old(Contents()), Call.Renew(key, owner, token, execution, expiresAt, now))
      ensures renewed == Holds(old(Contents()), Call.Renew(key, owner, token, execution, expiresAt, now))
    {
      if || key !in leases
         || leases[key].owner != owner
         || leases[key].token != token
         || key !in executionTokens
         || executionTokens[key] != execution
         || leases[key].expiresAt <= now {
        return false;
      }
      leases := leases[key := leases[key].(expiresAt := expiresAt)];
      renewed := true;
    }

    method Release(lease: IngestionLease)
      modifies this`leases, this`executionTokens
      ensures Contents() == Effect(old(Contents()), Call.Release(lease))
    {
      if && lease.key in leases
         && leases[lease.key].owner == lease.owner
         && leases[lease.key].token == lease.token {
        leases := leases - {lease.key};
        executionTokens := executionTokens - {lease.key};
      }
    }
  }

  // ---------------------------------------------------------------- sequences of calls

  function After(s: Store, cs: seq<Call>): Store
    decreases |cs|
  {
    if cs == [] then s else Effect(After(s, cs[..|cs| - 1]), cs[|cs| - 1])
  }

  const NEW_STORE := Store(map[], map[], map[])

  /** The store that call n meets. */
  function Before(cs: seq<Call>, n: nat): Store
    requires n <= |cs|
  {
    After(NEW_STORE, cs[..n])
  }

  lemma NextBefore(cs: seq<Call>, n: nat)
    requires n < |cs|
    ensures Before(cs, n + 1) == Effect(Before(cs, n), cs[n])
  {
    assert cs[..n + 1][..n] == cs[..n];
  }

  predicate ClockNeverRunsBack(cs: seq<Call>) {
    forall i, j :: 0 <= i < j < |cs| && !cs[i].Release? && !cs[j].Release? ==> cs[i].now <= cs[j].now
  }

  /** Call n grants the lease of key. */
  predicate Grants(cs: seq<Call>, n: nat, key: LeaseKey)
    requires n < |cs|
  {
    cs[n].Acquire? && cs[n].key == key && Free(Before(cs, n), key, cs[n].now)
  }

  function GrantedToken(cs: seq<Call>, n: nat): nat
    requires n < |cs| && cs[n].Acquire?
  {
    NextToken(Before(cs, n), cs[n].key)
  }

  /** The counter of a key is the number it granted last, and a stored lease carries it. */
  predicate CounterInv(s: Store, key: LeaseKey) {
    key in s.leases ==> key in s.tokens && s.leases[key].token == s.tokens[key] && s.leases[key].key == key
  }

  lemma {:induction false} CounterHolds(cs: seq<Call>, n: nat, key: LeaseKey)
    requires n <= |cs|
    ensures CounterInv(Before(cs, n), key)
  {
    if n > 0 {
      CounterHolds(cs, n - 1, key);
      NextBefore(cs, n - 1);
    }
  }

  lemma {:induction false} CounterNeverFalls(cs: seq<Call>, i: nat, j: nat, key: LeaseKey)
    requires i <= j <= |cs|
    ensures NextToken(Before(cs, i), key) <= NextToken(Before(cs, j), key)
    decreases j - i
  {
    if i < j {
      CounterNeverFalls(cs, i, j - 1, key);
      NextBefore(cs, j - 1);
    }
  }

  /** The tokens granted for one key strictly increase, releases or not. */
  lemma TokensStrictlyIncrease(cs: seq<Call>, i: nat, j: nat, key: LeaseKey)
    requires i < j < |cs| && Grants(cs, i, key) && Grants(cs, j, key)
    ensures GrantedToken(cs, i) < GrantedToken(cs, j)
  {
    NextBefore(cs, i);
    CounterNeverFalls(cs, i + 1, j, key);
  }

  /** Call m releases the lease granted by call i, by its holder. */
  predicate HolderReleases(cs: seq<Call>, i: nat, m: nat)
    requires i < |cs| && m < |cs| && cs[i].Acquire?
  {
    && cs[m].Release?
    && cs[m].lease.key == cs[i].key
    && cs[m].lease.owner == cs[i].owner
    && cs[m].lease.token == GrantedToken(cs, i)
  }

  predicate ReleasedBetween(cs: seq<Call>, i: nat, j: nat)
    requires i < |cs| && j <= |cs| && cs[i].Acquire?
  {
    exists m :: i < m < j && HolderReleases(cs, i, m)
  }

  /** When the lease granted by call i expires, counting the renewals made before call j. */
  function ExpiryBefore(cs: seq<Call>, i: nat, j: nat): int
    requires i < j <= |cs| && cs[i].Acquire?
    decreases j
  {
    if j == i + 1 then cs[i].expiresAt
    else
      var c := cs[j - 1];
      if c.Renew? && c.key == cs[i].key && c.token == GrantedToken(cs, i) && Holds(Before(cs, j - 1), c)
      then c.expiresAt
      else ExpiryBefore(cs, i, j - 1)
  }

  /** The lease that call i granted, as it stands before call j. */
  predicate StillHeld(cs: seq<Call>, i: nat, j: nat)
    requires i < j <= |cs| && cs[i].Acquire?
  {
    var key := cs[i].key;
    && key in Before(cs, j).leases
    && Before(cs, j).leases[key] == IngestionLease(key, cs[i].owner, GrantedToken(cs, i), ExpiryBefore(cs, i, j))
  }

  predicate ExpiredBy(cs: seq<Call>, i: nat, j: nat)
    requires i < j <= |cs| && cs[i].Acquire?
  {
    exists m :: i < m < j && Grants(cs, m, cs[i].key) && ExpiryBefore(cs, i, j) <= cs[m].now
  }

  predicate Gone(cs: seq<Call>, i: nat, j: nat)
    requires i < |cs| && j <= |cs| && cs[i].Acquire?
  {
    var key := cs[i].key;
    && NextToken(Before(cs, j), key) > GrantedToken(cs, i)
    && (key in Before(cs, j).leases ==> Before(cs, j).leases[key].token > GrantedToken(cs, i))
  }

  lemma HeldStep(cs: seq<Call>, i: nat, j: nat, key: LeaseKey)
    requires i < j < |cs| && Grants(cs, i, key) && StillHeld(cs, i, j)
    ensures StillHeld(cs, i, j + 1)
            || (Gone(cs, i, j + 1) && (ReleasedBetween(cs, i, j + 1) || ExpiredBy(cs, i, j + 1)))
  {
    NextBefore(cs, j);
    CounterHolds(cs, j, key);
    NextBefore(cs, i);
    CounterNeverFalls(cs, i + 1, j, key);
    var s, c := Before(cs, j), cs[j];
    if c.Acquire? && c.key == key && Free(s, key, c.now) {
      assert Grants(cs, j, key) && ExpiryBefore(cs, i, j + 1) <= cs[j].now;
    } else if c.Release? && c.lease.key == key && Holds(s, c) {
      assert HolderReleases(cs, i, j);
    }
  }

  lemma GoneStep(cs: seq<Call>, i: nat, j: nat, key: LeaseKey)
    requires i < j < |cs| && Grants(cs, i, key) && Gone(cs, i, j)
    ensures Gone(cs, i, j + 1) && ExpiryBefore(cs, i, j + 1) == ExpiryBefore(cs, i, j)
  {
    NextBefore(cs, j);
  }

  /** A granted lease stays as it is, renewals aside, until its holder releases it or an
      acquire finds it expired: nothing else ends it. */
  lemma {:induction false} OnlyReleaseOrExpiryEndsALease(cs: seq<Call>, i: nat, j: nat, key: LeaseKey)
    requires i < j <= |cs| && Grants(cs, i, key)
    ensures StillHeld(cs, i, j) || (Gone(cs, i, j) && (ReleasedBetween(cs, i, j) || ExpiredBy(cs, i, j)))
    decreases j
  {
    if j == i + 1 {
      NextBefore(cs, i);
    } else {
      OnlyReleaseOrExpiryEndsALease(cs, i, j - 1, key);
      if StillHeld(cs, i, j - 1) {
        HeldStep(cs, i, j - 1, key);
      } else {
        GoneStep(cs, i, j - 1, key);
        if ReleasedBetween(cs, i, j - 1) {
          var m :| i < m < j - 1 && HolderReleases(cs, i, m);
          assert ReleasedBetween(cs, i, j);
        } else {
          var m :| i < m < j - 1 && Grants(cs, m, key) && ExpiryBefore(cs, i, j - 1) <= cs[m].now;
          assert ExpiredBy(cs, i, j);
        }
      }
    }
  }

  /** Mutual exclusion: under a clock that never runs back, a later acquire of the key
      succeeds only after the holder released the lease or after its renewed expiry. */
  lemma MutualExclusion(cs: seq<Call>, i: nat, j: nat, key: LeaseKey)
    requires i < j < |cs| && Grants(cs, i, key) && Grants(cs, j, key) && ClockNeverRunsBack(cs)
    ensures ReleasedBetween(cs, i, j) || ExpiryBefore(cs, i, j) <= cs[j].now
  {
    OnlyReleaseOrExpiryEndsALease(cs, i, j, key);
  }
}
