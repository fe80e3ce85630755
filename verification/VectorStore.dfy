/** Vectors and their manifests (s3_vectors.py, s3_vector_manifests.py).  Any foreign call
    may fail: a put or a delete of several vectors then leaves any part of its work done, a
    put of the manifest leaves it written or not, and the caller stops where it is.  The
    same contracts therefore describe a crash at that point. */
module VectorStore {
  import opened Entities

  datatype Owner = Owner(tenant: string, document: string, generation: string)

  datatype VectorKey = VectorKey(owner: Owner, chunk: string)

  datatype VectorRecord = VectorRecord(
    owner: Owner, chunk: string, vector: seq<Float>, model: Option<string>, dimensions: Option<nat>,
    pipelineVersion: Option<string>)
  {
    function Key(): VectorKey { VectorKey.VectorKey(owner, chunk) }

    /** _validate_record */
    predicate Valid() {
      && model.Some? && dimensions.Some? && pipelineVersion.Some?
      && |vector| == dimensions.value
      && forall i :: 0 <= i < |vector| ==> vector[i].Finite?
    }
  }

  /** The vector index and the manifests. */
  datatype Store = Store(vectors: map<VectorKey, VectorRecord>, manifests: map<Owner, seq<VectorKey>>)
  {
    function Recorded(owner: Owner): seq<VectorKey> {
      if owner in manifests then manifests[owner] else []
    }
  }

  /** Everything stored can be found again through its manifest, and a manifest lists
      nothing that belongs to another generation. */
  ghost predicate Recoverable(s: Store) {
    (forall k :: Listed(s, k)) && (forall o :: OwnKeysOnly(s, o))
  }

  predicate Listed(s: Store, k: VectorKey) {
    k in s.vectors ==> k in s.Recorded(k.owner) && s.vectors[k].Key() == k
  }

  predicate OwnKeysOnly(s: Store, o: Owner) {
    forall k :: k in s.Recorded(o) ==> k.owner == o
  }

  function KeysOf(records: seq<VectorRecord>): (ks: seq<VectorKey>)
    ensures |ks| == |records| && forall i :: 0 <= i < |ks| ==> ks[i] == records[i].Key()
  {
    seq(|records|, i requires 0 <= i < |records| => records[i].Key())
  }

  /** The records stored one after the other. */
  function PutAll(vectors: map<VectorKey, VectorRecord>, records: seq<VectorRecord>): map<VectorKey, VectorRecord> {
    if records == [] then vectors
    else PutAll(vectors, records[..|records| - 1])[records[|records| - 1].Key() := records[|records| - 1]]
  }

  /** tuple(dict.fromkeys(...)): the first occurrence of each key, in order. */
  function Distinct(ks: seq<VectorKey>): (r: seq<VectorKey>)
    ensures forall k :: k in r <==> k in ks
    ensures forall i, j :: 0 <= i < j < |r| ==> r[i] != r[j]
  {
    if ks == [] then []
    else
      var front := Distinct(ks[..|ks| - 1]);
      var last := ks[|ks| - 1];
      assert ks == ks[..|ks| - 1] + [last];
      if last in front then front else front + [last]
  }

  /** Where a key occurs first. */
  function FirstAt(ks: seq<VectorKey>, k: VectorKey): (i: nat)
    requires k in ks
    ensures i < |ks| && ks[i] == k && k !in ks[..i]
  {
    if ks[0] == k then 0 else 1 + FirstAt(ks[1..], k)
  }

  lemma FirstAtIsUnique(ks: seq<VectorKey>, k: VectorKey, i: nat)
    requires i < |ks| && ks[i] == k && k !in ks[..i]
    ensures FirstAt(ks, k) == i
  {
    var j := FirstAt(ks, k);
    assert !(j < i) && !(i < j);
  }

  lemma FirstAtFront(ks: seq<VectorKey>, k: VectorKey)
    requires ks != [] && k in ks[..|ks| - 1]
    ensures k in ks && FirstAt(ks, k) == FirstAt(ks[..|ks| - 1], k)
  {
    var i := FirstAt(ks[..|ks| - 1], k);
    assert ks[..i] == ks[..|ks| - 1][..i];
    FirstAtIsUnique(ks, k, i);
  }

  /** The keys keep the order of their first occurrences. */
  lemma {:induction false} DistinctKeepsOrder(ks: seq<VectorKey>, i: nat, j: nat)
    requires i < j < |Distinct(ks)|
    ensures FirstAt(ks, Distinct(ks)[i]) < FirstAt(ks, Distinct(ks)[j])
    decreases |ks|
  {
    var n := |ks| - 1;
    var front, a, b := Distinct(ks[..n]), Distinct(ks)[i], Distinct(ks)[j];
    FirstAtFront(ks, a);
    if j < |front| {
      DistinctKeepsOrder(ks[..n], i, j);
      FirstAtFront(ks, b);
    } else {
      assert b == ks[n] && b !in ks[..n];
      FirstAtIsUnique(ks, b, n);
    }
  }

  // ---------------------------------------------------------------- what one step may do

  /** What may have changed after records of one owner were upserted, in full or in part. */
  ghost predicate Upserted(s: Store, t: Store, owner: Owner, records: seq<VectorRecord>) {
    && (forall o :: o != owner ==> t.Recorded(o) == s.Recorded(o) && (o in t.manifests <==> o in s.manifests))
    && (forall k :: k in s.Recorded(owner) ==> k in t.Recorded(owner))
    && (forall k :: k in t.Recorded(owner) ==> k in s.Recorded(owner) || k in KeysOf(records))
    && (forall k :: VectorUpserted(s, t, records, k))
  }

  ghost predicate VectorUpserted(s: Store, t: Store, records: seq<VectorRecord>, k: VectorKey) {
    && (k in s.vectors ==> k in t.vectors)
    && (k in t.vectors ==>
          || (k in s.vectors && t.vectors[k] == s.vectors[k])
          || (t.vectors[k] in records && t.vectors[k].Key() == k && k in t.Recorded(k.owner)))
  }

  /** What may have changed after a deletion of one generation, complete or not. */
  ghost predicate GenerationDeleted(s: Store, t: Store, owner: Owner, completed: bool) {
    && (forall o :: o != owner ==> t.Recorded(o) == s.Recorded(o) && (o in t.manifests <==> o in s.manifests))
    && (forall k :: k in t.vectors ==> k in s.vectors && t.vectors[k] == s.vectors[k])
    && (forall k :: k in s.vectors && k !in s.Recorded(owner) ==> k in t.vectors)
    && (owner in t.manifests ==> owner in s.manifests && t.manifests[owner] == s.manifests[owner])
    && (owner !in t.manifests ==> forall k :: k in s.Recorded(owner) ==> k !in t.vectors)
    && (completed ==> owner !in t.manifests)
  }

  lemma UpsertKeepsRecoverable(s: Store, t: Store, owner: Owner, records: seq<VectorRecord>)
    requires Recoverable(s) && Upserted(s, t, owner, records)
    requires forall i :: 0 <= i < |records| ==> records[i].owner == owner
    ensures Recoverable(t)
  {
    forall k ensures Listed(t, k) {
      assert VectorUpserted(s, t, records, k) && Listed(s, k);
    }
    forall o ensures OwnKeysOnly(t, o) {
      assert OwnKeysOnly(s, o);
    }
  }

  lemma DeleteKeepsRecoverable(s: Store, t: Store, owner: Owner, completed: bool)
    requires Recoverable(s) && GenerationDeleted(s, t, owner, completed)
    ensures Recoverable(t)
  {
    forall k ensures Listed(t, k) {
      assert Listed(s, k);
    }
    forall o ensures OwnKeysOnly(t, o) {
      assert OwnKeysOnly(s, o);
    }
  }

  // ---------------------------------------------------------------- vectors that land late

  /** A put was reported as failed, and its vector lands nevertheless. */
  function Landed(s: Store, record: VectorRecord): Store {
    s.(vectors := s.vectors[record.Key() := record])
  }

  /** It can be found again exactly when the manifest of its generation still lists it. */
  lemma LateVectorIsRecoverableIffListed(s: Store, record: VectorRecord)
    requires Recoverable(s)
    ensures Recoverable(Landed(s, record)) <==> record.Key() in s.Recorded(record.owner)
  {
    var t := Landed(s, record);
    if record.Key() in s.Recorded(record.owner) {
      forall k ensures Listed(t, k) {
        assert Listed(s, k);
      }
      forall o ensures OwnKeysOnly(t, o) {
        assert OwnKeysOnly(s, o);
      }
    } else {
      assert !Listed(t, record.Key());
    }
  }

  // ---------------------------------------------------------------- runs

  datatype Step =
    | Upsert(owner: Owner, records: seq<VectorRecord>)
    | LatePut(record: VectorRecord)
    | Delete(owner: Owner)

  ghost predicate StepAllowed(s: Store, t: Store, step: Step) {
    match step
    case Upsert(owner, records) =>
      Upserted(s, t, owner, records) && forall i :: 0 <= i < |records| ==> records[i].owner == owner
    case LatePut(record) => t == Landed(s, record)
    case Delete(owner) => GenerationDeleted(s, t, owner, false)
  }

  /** Every late vector is one that its generation's manifest still lists. */
  predicate LateOnesListed(states: seq<Store>, steps: seq<Step>)
    requires |states| == |steps| + 1
  {
    forall i :: 0 <= i < |steps| && steps[i].LatePut? ==>
      steps[i].record.Key() in states[i].Recorded(steps[i].record.owner)
  }

  ghost predicate IsRun(states: seq<Store>, steps: seq<Step>) {
    |states| == |steps| + 1
    && forall i {:trigger steps[i]} :: 0 <= i < |steps| ==> StepAllowed(states[i], states[i + 1], steps[i])
  }

  lemma {:induction false} RunKeepsRecoverable(states: seq<Store>, steps: seq<Step>)
    requires IsRun(states, steps) && Recoverable(states[0]) && LateOnesListed(states, steps)
    ensures Recoverable(states[|states| - 1])
    decreases |steps|
  {
    if steps != [] {
      var n := |steps| - 1;
      assert forall i :: 0 <= i < n ==> steps[..n][i] == steps[i];
      RunKeepsRecoverable(states[..n + 1], steps[..n]);
      assert StepAllowed(states[n], states[n + 1], steps[n]);
      match steps[n]
      case Upsert(owner, records) => UpsertKeepsRecoverable(states[n], states[n + 1], owner, records);
      case LatePut(record) => LateVectorIsRecoverableIffListed(states[n], record);
      case Delete(owner) => DeleteKeepsRecoverable(states[n], states[n + 1], owner, false);
    }
  }

  /** After any run of upserts and deletions, each of them complete or broken off anywhere,
      and of late vectors that are still listed, one completed deletion removes every vector
      of the generation, and nothing else. */
  lemma CompletedDeletionRemovesAll(states: seq<Store>, steps: seq<Step>, t: Store, owner: Owner)
    requires IsRun(states, steps) && Recoverable(states[0]) && LateOnesListed(states, steps)
    requires GenerationDeleted(states[|states| - 1], t, owner, true)
    ensures forall k :: k in t.vectors <==> k in states[|states| - 1].vectors && k.owner != owner
    ensures forall k :: k in t.vectors ==> t.vectors[k] == states[|states| - 1].vectors[k]
    ensures owner !in t.manifests
    ensures forall o :: o != owner ==> t.Recorded(o) == states[|states| - 1].Recorded(o)
  {
    RunKeepsRecoverable(states, steps);
    var s := states[|states| - 1];
    forall k | k in s.vectors ensures k in t.vectors <==> k.owner != owner {
      assert Listed(s, k) && OwnKeysOnly(s, owner);
    }
  }

  // ---------------------------------------------------------------- vectors that landed too late

  ghost predicate AllOwnKeys(s: Store) {
    forall o :: OwnKeysOnly(s, o)
  }

  /** The vector is stored and in no manifest. */
  ghost predicate Forgotten(s: Store, k: VectorKey) {
    k in s.vectors && k !in s.Recorded(k.owner) && AllOwnKeys(s)
  }

  /** The step is an upsert or a late put of a vector with this key. */
  predicate Stores(step: Step, k: VectorKey) {
    match step
    case Upsert(_, records) => k in KeysOf(records)
    case LatePut(record) => record.Key() == k
    case Delete(_) => false
  }

  lemma OwnKeysAfterStep(s: Store, t: Store, step: Step)
    requires StepAllowed(s, t, step) && AllOwnKeys(s)
    ensures AllOwnKeys(t)
  {
    forall o ensures OwnKeysOnly(t, o) {
      assert OwnKeysOnly(s, o);
    }
  }

  lemma ForgottenStays(s: Store, t: Store, step: Step, k: VectorKey)
    requires StepAllowed(s, t, step) && !Stores(step, k) && Forgotten(s, k)
    ensures Forgotten(t, k)
  {
    OwnKeysAfterStep(s, t, step);
    match step
    case Upsert(_, records) => assert VectorUpserted(s, t, records, k);
    case LatePut(_) =>
    case Delete(owner) => assert OwnKeysOnly(s, owner);
  }

  /** A vector that lands when its manifest no longer lists it, its generation having been
      deleted, stays: whatever is upserted or deleted afterwards, completely or not, it is
      neither removed nor listed, as long as the same vector is not stored again. */
  lemma {:induction false} LateVectorIsForgotten(states: seq<Store>, steps: seq<Step>, s: Store, record: VectorRecord)
    requires Recoverable(s) && record.Key() !in s.Recorded(record.owner)
    requires IsRun(states, steps) && states[0] == Landed(s, record)
    requires forall i :: 0 <= i < |steps| ==> !Stores(steps[i], record.Key())
    ensures Forgotten(states[|states| - 1], record.Key())
    decreases |steps|
  {
    if steps == [] {
      forall o ensures OwnKeysOnly(states[0], o) {
        assert OwnKeysOnly(s, o);
      }
    } else {
      var n := |steps| - 1;
      assert forall i :: 0 <= i < n ==> steps[..n][i] == steps[i];
      LateVectorIsForgotten(states[..n + 1], steps[..n], s, record);
      assert StepAllowed(states[n], states[n + 1], steps[n]);
      ForgottenStays(states[n], states[n + 1], steps[n], record.Key());
    }
  }

  // ---------------------------------------------------------------- the repository

  lemma PutAllFacts(vectors: map<VectorKey, VectorRecord>, records: seq<VectorRecord>, k: VectorKey)
    ensures k in PutAll(vectors, records) <==> k in vectors || k in KeysOf(records)
    ensures k in KeysOf(records) ==> PutAll(vectors, records)[k] in records && PutAll(vectors, records)[k].Key() == k
    ensures k !in KeysOf(records) && k in vectors ==> PutAll(vectors, records)[k] == vectors[k]
  {
    if records != [] {
      var n := |records| - 1;
      PutAllFacts(vectors, records[..n], k);
      assert KeysOf(records) == KeysOf(records[..n]) + [records[n].Key()];
      assert records == records[..n] + [records[n]];
    }
  }

  lemma {:induction false} PutAllConcatenation(vectors: map<VectorKey, VectorRecord>, a: seq<VectorRecord>,
                                               b: seq<VectorRecord>)
    ensures PutAll(vectors, a + b) == PutAll(PutAll(vectors, a), b)
  {
    if b == [] {
      assert a + b == a;
    } else {
      PutAllConcatenation(vectors, a, b[..|b| - 1]);
      assert (a + b)[..|a + b| - 1] == a + b[..|b| - 1];
    }
  }

  /** The records of one owner, in order. */
  function Group(records: seq<VectorRecord>, owner: Owner): (group: seq<VectorRecord>)
    ensures forall i :: 0 <= i < |group| ==> group[i].owner == owner
  {
    if records == [] then []
    else
      var last := records[|records| - 1];
      Group(records[..|records| - 1], owner) + (if last.owner == owner then [last] else [])
  }

  /** The keys of defaultdict(list), in the order of their first records. */
  function Owners(records: seq<VectorRecord>): (owners: seq<Owner>)
    ensures forall o :: o in owners <==> exists i :: 0 <= i < |records| && records[i].owner == o
    ensures forall i, j :: 0 <= i < j < |owners| ==> owners[i] != owners[j]
  {
    if records == [] then []
    else
      var front, last := Owners(records[..|records| - 1]), records[|records| - 1].owner;
      if last in front then front else front + [last]
  }

  predicate Agree(a: map<VectorKey, VectorRecord>, b: map<VectorKey, VectorRecord>, k: VectorKey) {
    (k in a <==> k in b) && (k in a ==> a[k] == b[k])
  }

  /** Putting one group has the effect of putting all records on the keys of that group, and
      none on any other key. */
  lemma {:induction false} PutGroup(a: map<VectorKey, VectorRecord>, b: map<VectorKey, VectorRecord>,
                                    records: seq<VectorRecord>, owner: Owner, k: VectorKey)
    requires Agree(a, b, k)
    ensures Agree(PutAll(a, Group(records, owner)), if k.owner == owner then PutAll(b, records) else b, k)
  {
    if records != [] {
      var n := |records| - 1;
      PutGroup(a, b, records[..n], owner, k);
      var front := Group(records[..n], owner);
      if records[n].owner == owner {
        assert (front + [records[n]])[..|front|] == front;
      } else {
        assert front + [] == front;
      }
    }
  }

  /** The records of some owners are stored, those of the others are not. */
  ghost predicate HalfPut(before: map<VectorKey, VectorRecord>, now: map<VectorKey, VectorRecord>,
                          records: seq<VectorRecord>, owners: seq<Owner>) {
    forall k: VectorKey :: Agree(now, if k.owner in owners then PutAll(before, records) else before, k)
  }

  /** An upsert that broke off at some owner: the owners before it are done, those after it
      have not been begun. */
  ghost predicate BrokenAt(before: map<VectorKey, VectorRecord>, now: map<VectorKey, VectorRecord>,
                           records: seq<VectorRecord>, owners: seq<Owner>, i: nat) {
    i < |owners| && forall k: VectorKey :: k.owner != owners[i] ==>
      Agree(now, if k.owner in owners[..i] then PutAll(before, records) else before, k)
  }

  /** What an upsert of records of any owners may have changed, in full or in part: no vector
      and no manifest entry is lost, every new vector is one of the records and is listed, and
      manifests of other owners are as they were. */
  ghost predicate AllUpserted(s: Store, t: Store, records: seq<VectorRecord>) {
    && (forall o :: o !in Owners(records) ==>
          && t.Recorded(o) == s.Recorded(o)
          && (o in t.manifests <==> o in s.manifests))
    && (forall o :: Grown(s, t, records, o))
    && (forall k :: VectorUpserted(s, t, records, k))
  }

  predicate Grown(s: Store, t: Store, records: seq<VectorRecord>, o: Owner) {
    && (forall k :: k in s.Recorded(o) ==> k in t.Recorded(o))
    && (forall k :: k in t.Recorded(o) ==> k in s.Recorded(o) || k in KeysOf(records))
  }

  lemma {:induction false} GroupIsPart(records: seq<VectorRecord>, owner: Owner)
    ensures forall r :: r in Group(records, owner) ==> r in records
    ensures forall k :: k in KeysOf(Group(records, owner)) ==> k in KeysOf(records)
  {
    var group := Group(records, owner);
    if records != [] {
      var n := |records| - 1;
      GroupIsPart(records[..n], owner);
      forall r | r in group ensures r in records {
        if r in Group(records[..n], owner) {
          assert r in records[..n];
        }
      }
    }
    forall k | k in KeysOf(group) ensures k in KeysOf(records) {
      var i :| 0 <= i < |group| && KeysOf(group)[i] == k;
      assert group[i] in group;
      var j :| 0 <= j < |records| && records[j] == group[i];
      assert KeysOf(records)[j] == k;
    }
  }

  /** One owner's turn in it. */
  lemma AllUpsertedInTurn(before: Store, s: Store, t: Store, owner: Owner, records: seq<VectorRecord>)
    requires AllUpserted(before, s, records) && owner in Owners(records)
    requires Upserted(s, t, owner, Group(records, owner))
    ensures AllUpserted(before, t, records)
  {
    GroupIsPart(records, owner);
    forall o ensures Grown(before, t, records, o) {
      assert Grown(before, s, records, o);
    }
    forall k ensures VectorUpserted(before, t, records, k) {
      assert VectorUpserted(before, s, records, k) && VectorUpserted(s, t, Group(records, owner), k);
    }
  }

  lemma NoneUpserted(s: Store, records: seq<VectorRecord>)
    ensures AllUpserted(s, s, records)
  {
    forall o ensures Grown(s, s, records, o) {
    }
    forall k ensures VectorUpserted(s, s, records, k) {
    }
  }

  /** The owner at which it breaks off is the only one between old and new. */
  lemma BreaksOffAt(before: map<VectorKey, VectorRecord>, s: Store, t: Store, records: seq<VectorRecord>,
                    owners: seq<Owner>, i: nat, group: seq<VectorRecord>)
    requires i < |owners| && HalfPut(before, s.vectors, records, owners[..i])
    requires Upserted(s, t, owners[i], group) && forall j :: 0 <= j < |group| ==> group[j].owner == owners[i]
    ensures BrokenAt(before, t.vectors, records, owners, i)
  {
    forall k: VectorKey | k.owner != owners[i]
      ensures Agree(t.vectors, if k.owner in owners[..i] then PutAll(before, records) else before, k)
    {
      assert VectorUpserted(s, t, group, k);
      assert Agree(s.vectors, if k.owner in owners[..i] then PutAll(before, records) else before, k);
    }
  }

  lemma OwnerTurn(before: map<VectorKey, VectorRecord>, s: map<VectorKey, VectorRecord>, records: seq<VectorRecord>,
                  owners: seq<Owner>, i: nat)
    requires i < |owners| && HalfPut(before, s, records, owners[..i])
    requires owners[i] !in owners[..i]
    ensures HalfPut(before, PutAll(s, Group(records, owners[i])), records, owners[..i + 1])
  {
    var all, t := PutAll(before, records), PutAll(s, Group(records, owners[i]));
    assert owners[..i + 1] == owners[..i] + [owners[i]];
    forall k: VectorKey ensures Agree(t, if k.owner in owners[..i + 1] then all else before, k) {
      assert Agree(s, if k.owner in owners[..i] then all else before, k);
      PutGroup(s, if k.owner in owners[..i] then all else before, records, owners[i], k);
    }
  }

  lemma AllOwnersDone(before: map<VectorKey, VectorRecord>, now: map<VectorKey, VectorRecord>,
                      records: seq<VectorRecord>, owners: seq<Owner>)
    requires HalfPut(before, now, records, owners)
    requires forall i :: 0 <= i < |records| ==> records[i].owner in owners
    ensures now == PutAll(before, records)
  {
    var all := PutAll(before, records);
    forall k: VectorKey ensures Agree(now, all, k) {
      assert Agree(now, if k.owner in owners then all else before, k);
      PutAllFacts(before, records, k);
      if k.owner !in owners {
        assert forall i :: 0 <= i < |records| ==> KeysOf(records)[i].owner in owners;
        assert k !in KeysOf(records);
      }
    }
    assert forall k :: k in now <==> k in all by {
      forall k ensures k in now <==> k in all {
        assert Agree(now, all, k);
      }
    }
    forall k | k in now ensures now[k] == all[k] {
      assert Agree(now, all, k);
    }
  }

  lemma NonePut(before: map<VectorKey, VectorRecord>, records: seq<VectorRecord>)
    ensures HalfPut(before, before, records, [])
  {
    forall k: VectorKey ensures Agree(before, before, k) {
    }
  }

  lemma AllOwnersPut(before: map<VectorKey, VectorRecord>, now: map<VectorKey, VectorRecord>,
                     records: seq<VectorRecord>, owners: seq<Owner>)
    requires HalfPut(before, now, records, owners) && owners == Owners(records)[..|Owners(records)|]
    ensures now == PutAll(before, records)
  {
    assert owners == Owners(records);
    AllOwnersDone(before, now, records, owners);
  }

  predicate OfDocument(o: Owner, tenant: string, document: string) {
    o.tenant == tenant && o.document == document
  }

  datatype Outcome = Done | Invalid | Broken

  class S3VectorRepository {
    const writeBatchSize: nat
    const deleteBatchSize: nat
    var vectors: map<VectorKey, VectorRecord>
    var manifests: map<Owner, seq<VectorKey>>

    ghost predicate Valid() { 1 <= writeBatchSize <= 500 && 1 <= deleteBatchSize <= 500 }

    ghost function Contents(): Store
      reads this
    {
      Store(vectors, manifests)
    }

    constructor (writeBatchSize: nat, deleteBatchSize: nat)
      requires 1 <= writeBatchSize <= 500 && 1 <= deleteBatchSize <= 500
      ensures Valid() && Contents() == Store(map[], map[]) && Recoverable(Contents())
    {
      this.writeBatchSize, this.deleteBatchSize := writeBatchSize, deleteBatchSize;
      vectors, manifests := map[], map[];
      new;
      assert forall k :: Listed(Contents(), k);
      assert forall o :: OwnKeysOnly(Contents(), o);
    }

    /** The service call put_vectors. */
    method PutVectors(batch: seq<VectorRecord>) returns (ok: bool)
      modifies this`vectors
      ensures ok ==> vectors == PutAll(old(vectors), batch)
      ensures !ok ==> exists landed: seq<VectorRecord> ::
              (forall r :: r in landed ==> r in batch) && vectors == PutAll(old(vectors), landed)
    {
      ok := *;
      var landed := batch;
      if !ok {
        landed := [];
        for i := 0 to |batch|
          invariant forall r :: r in landed ==> r in batch
        {
          var lands: bool := *;
          landed := if lands then landed + [batch[i]] else landed;
        }
      }
      var written := [];
      for i := 0 to |landed|
        invariant written == landed[..i] && vectors == PutAll(old(vectors), written)
      {
        vectors := vectors[landed[i].Key() := landed[i]];
        written := written + [landed[i]];
        assert written[..i] == landed[..i];
      }
      assert landed[..|landed|] == landed;
    }

    /** The service call delete_vectors. */
    method DeleteVectors(batch: seq<VectorKey>) returns (ok: bool)
      modifies this`vectors
      ensures ok ==> vectors == old(vectors) - (set k | k in batch)
      ensures forall k :: k in vectors ==> k in old(vectors) && vectors[k] == old(vectors)[k]
      ensures forall k :: k in old(vectors) && k !in batch ==> k in vectors
    {
      ok := *;
      var gone := set k | k in batch;
      if !ok {
        var part: set<VectorKey> := *;
        gone := gone * part;
      }
      vectors := vectors - gone;
    }

    /** Read the manifest, merge, write it back. */
    method RecordKeys(owner: Owner, keys: seq<VectorKey>) returns (ok: bool)
      modifies this`manifests
      ensures ok ==> manifests == old(manifests)[owner := Distinct(old(Contents()).Recorded(owner) + keys)]
      ensures !ok ==> manifests == old(manifests)
                      || manifests == old(manifests)[owner := Distinct(old(Contents()).Recorded(owner) + keys)]
    {
      var read: bool := *;
      if !read {
        return false;
      }
      var existing := if owner in manifests then manifests[owner] else [];
      var merged := Distinct(existing + keys);
      var landed: bool := *;
      if landed {
        manifests := manifests[owner := merged];
      }
      ok := *;
      ok := ok && landed;
    }

    /** One turn of the loop: the manifest is written before the vectors. */
    method WriteBatch(owner: Owner, batch: seq<VectorRecord>) returns (ok: bool)
      requires forall i :: 0 <= i < |batch| ==> batch[i].owner == owner
      modifies this
      ensures Upserted(old(Contents()), Contents(), owner, batch)
      ensures ok ==> vectors == PutAll(old(vectors), batch)
    {
      ghost var before := Contents();
      var recorded := RecordKeys(owner, KeysOf(batch));
      ManifestGrows(before, Contents(), owner, batch);
      if !recorded {
        return false;
      }
      ghost var m := Contents();
      forall i | 0 <= i < |batch| ensures KeysOf(batch)[i] in m.Recorded(owner) {
        assert KeysOf(batch)[i] in before.Recorded(owner) + KeysOf(batch);
      }
      ok := PutVectors(batch);
      ghost var landed := batch;
      if !ok {
        landed :| (forall r :: r in landed ==> r in batch) && vectors == PutAll(m.vectors, landed);
      }
      BatchLands(before, m, Contents(), owner, batch, landed);
    }

    method UpsertGeneration(owner: Owner, records: seq<VectorRecord>) returns (ok: bool)
      requires Valid() && forall i :: 0 <= i < |records| ==> records[i].owner == owner
      modifies this
      ensures Upserted(old(Contents()), Contents(), owner, records)
      ensures ok ==> vectors == PutAll(old(vectors), records)
      ensures old(Recoverable(Contents())) ==> Recoverable(Contents())
    {
      ghost var before := Contents();
      var offset := 0;
      ok := true;
      NothingUpserted(before, owner, records);
      while offset < |records| && ok
        invariant 0 <= offset <= |records|
        invariant Upserted(before, Contents(), owner, records)
        invariant ok ==> vectors == PutAll(before.vectors, records[..offset])
      {
        var end := if offset + writeBatchSize < |records| then offset + writeBatchSize else |records|;
        var batch := records[offset..end];
        ghost var s := Contents();
        ok := WriteBatch(owner, batch);
        UpsertedInTurn(before, s, Contents(), owner, records, batch);
        if ok {
          PutAllConcatenation(before.vectors, records[..offset], batch);
          assert records[..offset] + batch == records[..end];
        }
        offset := end;
      }
      assert records[..|records|] == records;
      BrokenOff(before, Contents(), owner, records);
    }

    /** All records are checked before anything is written; then one generation after the
        other is upserted, with the effect of storing the records in the order given. */
    method Upsert(records: seq<VectorRecord>) returns (outcome: Outcome)
      requires Valid()
      modifies this
      ensures outcome == Invalid <==> exists i :: 0 <= i < |records| && !records[i].Valid()
      ensures outcome == Invalid ==> Contents() == old(Contents())
      ensures outcome == Done ==> vectors == PutAll(old(vectors), records)
      ensures outcome == Broken ==> exists i :: BrokenAt(old(vectors), vectors, records, Owners(records), i)
      ensures outcome != Invalid ==> AllUpserted(old(Contents()), Contents(), records)
      ensures old(Recoverable(Contents())) ==> Recoverable(Contents())
    {
      for i := 0 to |records|
        invariant forall j :: 0 <= j < i ==> records[j].Valid()
      {
        if !records[i].Valid() {
          return Invalid;
        }
      }
      var ok := UpsertAll(records);
      outcome := if ok then Done else Broken;
    }

    /** The records of one owner after the other. */
    method UpsertAll(records: seq<VectorRecord>) returns (ok: bool)
      requires Valid()
      modifies this
      ensures ok ==> vectors == PutAll(old(vectors), records)
      ensures !ok ==> exists i :: BrokenAt(old(vectors), vectors, records, Owners(records), i)
      ensures AllUpserted(old(Contents()), Contents(), records)
      ensures old(Recoverable(Contents())) ==> Recoverable(Contents())
    {
      ghost var start := Contents();
      var owners := Owners(records);
      NoneUpserted(start, records);
      NonePut(start.vectors, records);
      var i := 0;
      while i < |owners|
        invariant i <= |owners|
        invariant Recoverable(start) ==> Recoverable(Contents())
        invariant HalfPut(start.vectors, vectors, records, owners[..i])
        invariant AllUpserted(start, Contents(), records)
      {
        ok := UpsertOwner(records, owners, i, start);
        if !ok {
          return;
        }
        i := i + 1;
      }
      AllOwnersPut(start.vectors, vectors, records, owners[..i]);
      ok := true;
    }

    /** One turn of that loop. */
    method UpsertOwner(records: seq<VectorRecord>, owners: seq<Owner>, i: nat, ghost start: Store) returns (ok: bool)
      requires Valid() && owners == Owners(records) && i < |owners|
      requires HalfPut(start.vectors, vectors, records, owners[..i]) && AllUpserted(start, Contents(), records)
      modifies this
      ensures AllUpserted(start, Contents(), records)
      ensures ok ==> HalfPut(start.vectors, vectors, records, owners[..i + 1])
      ensures !ok ==> BrokenAt(start.vectors, vectors, records, owners, i)
      ensures old(Recoverable(Contents())) ==> Recoverable(Contents())
    {
      ghost var s := Contents();
      ok := UpsertGeneration(owners[i], Group(records, owners[i]));
      AllUpsertedInTurn(start, s, Contents(), owners[i], records);
      if ok {
        OwnerTurn(start.vectors, s.vectors, records, owners, i);
      } else {
        BreaksOffAt(start.vectors, s, Contents(), records, owners, i, Group(records, owners[i]));
      }
    }

    /** Vectors first, manifest last. */
    method DeleteGeneration(owner: Owner) returns (ok: bool)
      requires Valid()
      modifies this
      ensures GenerationDeleted(old(Contents()), Contents(), owner, ok)
      ensures old(Recoverable(Contents())) ==> Recoverable(Contents())
    {
      ghost var before := Contents();
      var loaded: bool := *;
      if !loaded {
        return false;
      }
      var keys := if owner in manifests then manifests[owner] else [];
      var offset := 0;
      while offset < |keys|
        invariant 0 <= offset <= |keys|
        invariant manifests == before.manifests
        invariant forall k :: k in vectors ==> k in before.vectors && vectors[k] == before.vectors[k]
        invariant forall k :: k in before.vectors && k !in keys ==> k in vectors
        invariant forall i :: 0 <= i < offset ==> keys[i] !in vectors
      {
        var end := if offset + deleteBatchSize < |keys| then offset + deleteBatchSize else |keys|;
        var batch := keys[offset..end];
        assert forall k :: k in batch ==> k in keys;
        var deleted := DeleteVectors(batch);
        if !deleted {
          DeletionBrokenOff(before, Contents(), owner, false);
          return false;
        }
        forall i | offset <= i < end ensures keys[i] in batch {
          assert keys[i] == batch[i - offset];
        }
        offset := end;
      }
      var landed: bool := *;
      if landed {
        manifests := manifests - {owner};
      }
      ok := *;
      ok := ok && landed;
      DeletionBrokenOff(before, Contents(), owner, ok);
    }

    /** Every generation with a manifest is deleted, in whatever order the listing gives. */
    method DeleteDocument(tenant: string, document: string) returns (ok: bool)
      requires Valid() && Recoverable(Contents())
      modifies this
      ensures Recoverable(Contents())
      ensures forall k :: k in vectors ==> k in old(vectors) && vectors[k] == old(vectors)[k]
      ensures forall k :: k in old(vectors) && !OfDocument(k.owner, tenant, document) ==> k in vectors
      ensures ok ==> forall k :: k in vectors ==> !OfDocument(k.owner, tenant, document)
      ensures ok ==> forall o :: o in manifests ==> !OfDocument(o, tenant, document)
    {
      var listed := set o | o in manifests && OfDocument(o, tenant, document);
      ok := true;
      while listed != {} && ok
        invariant Recoverable(Contents())
        invariant forall o :: o in listed ==> OfDocument(o, tenant, document)
        invariant forall k :: k in vectors ==> k in old(vectors) && vectors[k] == old(vectors)[k]
        invariant forall k :: k in old(vectors) && !OfDocument(k.owner, tenant, document) ==> k in vectors
        invariant ok ==> forall o :: o in manifests && OfDocument(o, tenant, document) ==> o in listed
        decreases |listed|
      {
        var owner :| owner in listed;
        ghost var s := Contents();
        ok := DeleteGeneration(owner);
        forall k | k in s.vectors && !OfDocument(k.owner, tenant, document) ensures k in vectors {
          assert OwnKeysOnly(s, owner);
        }
        listed := listed - {owner};
      }
      forall k | k in vectors && ok ensures !OfDocument(k.owner, tenant, document) {
        assert Listed(Contents(), k);
      }
    }
  }

  lemma BrokenOff(before: Store, after: Store, owner: Owner, records: seq<VectorRecord>)
    requires Upserted(before, after, owner, records)
    requires forall i :: 0 <= i < |records| ==> records[i].owner == owner
    ensures Recoverable(before) ==> Recoverable(after)
  {
    if Recoverable(before) {
      UpsertKeepsRecoverable(before, after, owner, records);
    }
  }

  lemma DeletionBrokenOff(before: Store, after: Store, owner: Owner, completed: bool)
    requires GenerationDeleted(before, after, owner, completed)
    ensures Recoverable(before) ==> Recoverable(after)
  {
    if Recoverable(before) {
      DeleteKeepsRecoverable(before, after, owner, completed);
    }
  }

  lemma NothingUpserted(s: Store, owner: Owner, records: seq<VectorRecord>)
    ensures Upserted(s, s, owner, records)
  {
    forall k ensures VectorUpserted(s, s, records, k) {
    }
  }

  lemma UpsertedInTurn(before: Store, s: Store, t: Store, owner: Owner, records: seq<VectorRecord>,
                       batch: seq<VectorRecord>)
    requires Upserted(before, s, owner, records) && Upserted(s, t, owner, batch)
    requires forall r :: r in batch ==> r in records
    ensures Upserted(before, t, owner, records)
  {
    forall k ensures VectorUpserted(before, t, records, k) {
      assert VectorUpserted(before, s, records, k) && VectorUpserted(s, t, batch, k);
    }
    forall k | k in KeysOf(batch) ensures k in KeysOf(records) {
      var i :| 0 <= i < |batch| && KeysOf(batch)[i] == k;
      assert batch[i] in batch;
      var j :| 0 <= j < |records| && records[j] == batch[i];
      assert KeysOf(records)[j] == k;
    }
  }

  lemma ManifestGrows(s: Store, m: Store, owner: Owner, batch: seq<VectorRecord>)
    requires m.vectors == s.vectors
    requires m.manifests == s.manifests
             || m.manifests == s.manifests[owner := Distinct(s.Recorded(owner) + KeysOf(batch))]
    ensures Upserted(s, m, owner, batch)
  {
    forall k ensures VectorUpserted(s, m, batch, k) {
    }
  }

  lemma BatchLands(s: Store, m: Store, t: Store, owner: Owner, batch: seq<VectorRecord>, landed: seq<VectorRecord>)
    requires Upserted(s, m, owner, batch) && m.vectors == s.vectors && t == m.(vectors := PutAll(m.vectors, landed))
    requires forall i :: 0 <= i < |batch| ==> batch[i].owner == owner && KeysOf(batch)[i] in m.Recorded(owner)
    requires forall r :: r in landed ==> r in batch
    ensures Upserted(s, t, owner, batch)
  {
    forall k ensures VectorUpserted(s, t, batch, k) {
      PutAllFacts(m.vectors, landed, k);
      if k in KeysOf(landed) {
        var r := PutAll(m.vectors, landed)[k];
        var i :| 0 <= i < |batch| && batch[i] == r;
        assert KeysOf(batch)[i] == k;
      }
    }
  }
}
