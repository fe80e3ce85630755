/** Chunk objects and their manifests (s3_chunk_store.py, s3_json_store.py).  The manifest of
    a generation is written first and names the keys of one batch; the objects are written
    concurrently, so that a broken batch leaves any of them behind, and one that was still
    on its way may even land later.  A deletion without a manifest lists the objects of the
    generation instead. */
module ChunkStore {
  import opened Entities

  datatype Manifest = Manifest(tenant: string, document: string, generation: string)

  /** The object key: the document is not part of it. */
  datatype ChunkKey = ChunkKey(tenant: string, generation: string, chunk: string)

  datatype Chunk = Chunk(tenant: string, document: string, generation: string, id: string, content: string)
  {
    function Key(): ChunkKey { ChunkKey(tenant, generation, id) }
    function ManifestOf(): Manifest { Manifest(tenant, document, generation) }
  }

  datatype Bucket = Bucket(objects: map<ChunkKey, Chunk>, manifests: map<Manifest, seq<ChunkKey>>)

  predicate Belongs(k: ChunkKey, m: Manifest) { k.tenant == m.tenant && k.generation == m.generation }

  /** A manifest that exists names every object of its generation, and nothing else. */
  ghost predicate Recoverable(b: Bucket) {
    forall m :: Exact(b, m)
  }

  ghost predicate Exact(b: Bucket, m: Manifest) {
    m in b.manifests ==>
      && (forall k :: k in b.objects && Belongs(k, m) ==> k in b.manifests[m])
      && (forall k :: k in b.manifests[m] ==> Belongs(k, m))
  }

  function KeysOf(chunks: seq<Chunk>): (ks: seq<ChunkKey>)
    ensures |ks| == |chunks| && forall i :: 0 <= i < |ks| ==> ks[i] == chunks[i].Key()
  {
    seq(|chunks|, i requires 0 <= i < |chunks| => chunks[i].Key())
  }

  /** put_batch accepts chunks of one tenant, document and generation. */
  predicate OneGeneration(chunks: seq<Chunk>) {
    chunks != [] ==> forall i :: 0 <= i < |chunks| ==> chunks[i].ManifestOf() == chunks[0].ManifestOf()
  }

  /** The chunk objects of a batch that are there afterwards: any of them, or all. */
  ghost predicate ObjectsPut(before: map<ChunkKey, Chunk>, after: map<ChunkKey, Chunk>, chunks: seq<Chunk>) {
    && (forall k :: k in before ==> k in after)
    && (forall k :: k in after ==>
          || (k in before && after[k] == before[k])
          || (k in KeysOf(chunks) && after[k] in chunks && after[k].Key() == k))
  }

  /** Every key of the batch holds a chunk of the batch. */
  ghost predicate AllPut(objects: map<ChunkKey, Chunk>, chunks: seq<Chunk>) {
    forall i :: 0 <= i < |chunks| ==> Held(objects, chunks, i)
  }

  lemma ObjectLands(before: map<ChunkKey, Chunk>, now: map<ChunkKey, Chunk>, chunks: seq<Chunk>, next: Chunk)
    requires ObjectsPut(before, now, chunks) && next in chunks
    ensures var after := now[next.Key() := next];
            && ObjectsPut(before, after, chunks)
            && forall i :: 0 <= i < |chunks| && (Held(now, chunks, i) || chunks[i] == next) ==> Held(after, chunks, i)
  {
    var j :| 0 <= j < |chunks| && chunks[j] == next;
    assert KeysOf(chunks)[j] == next.Key();
  }

  predicate Held(objects: map<ChunkKey, Chunk>, chunks: seq<Chunk>, i: nat)
    requires i < |chunks|
  {
    && KeysOf(chunks)[i] in objects
    && objects[KeysOf(chunks)[i]] in chunks
    && objects[KeysOf(chunks)[i]].Key() == KeysOf(chunks)[i]
  }

  /** A whole or broken put_batch. */
  ghost predicate BatchPut(b: Bucket, t: Bucket, chunks: seq<Chunk>) {
    chunks != [] && OneGeneration(chunks)
    && ((t == b) || (t.manifests == b.manifests[chunks[0].ManifestOf() := KeysOf(chunks)]
             && ObjectsPut(b.objects, t.objects, chunks)))
  }

  /** A whole or broken delete_generation. */
  ghost predicate GenerationDeleted(b: Bucket, t: Bucket, m: Manifest, completed: bool) {
    && (t.manifests == b.manifests || t.manifests == b.manifests - {m})
    && (forall k :: k in t.objects ==> k in b.objects && t.objects[k] == b.objects[k])
    && (forall k :: k in b.objects && k !in Doomed(b, m) ==> k in t.objects)
    && (completed || t.manifests != b.manifests ==> forall k :: k in Doomed(b, m) ==> k !in t.objects)
    && (completed ==> m !in t.manifests)
  }

  /** The keys that delete_generation works through. */
  ghost function Doomed(b: Bucket, m: Manifest): iset<ChunkKey> {
    if m in b.manifests then iset k | k in b.manifests[m] else iset k | k in b.objects && Belongs(k, m)
  }

  // ---------------------------------------------------------------- what a batch keeps

  /** The manifest is overwritten, not merged: the state stays recoverable, at every point
      of the batch, exactly when no object of the generation lies outside the batch and no
      other document's manifest for the same generation misses a key of it. */
  predicate Covers(b: Bucket, chunks: seq<Chunk>)
    requires chunks != []
  {
    var m := chunks[0].ManifestOf();
    && (forall k :: k in b.objects && Belongs(k, m) ==> k in KeysOf(chunks))
    && (forall o, k :: o in b.manifests && o != m && k in KeysOf(chunks) && Belongs(k, o) ==> k in b.manifests[o])
  }

  lemma BatchKeepsRecoverable(b: Bucket, t: Bucket, chunks: seq<Chunk>)
    requires Recoverable(b) && BatchPut(b, t, chunks) && Covers(b, chunks)
    ensures Recoverable(t)
  {
    forall m ensures Exact(t, m) {
      assert Exact(b, m);
    }
  }

  /** The batch done in full. */
  function Complete(b: Bucket, chunks: seq<Chunk>): Bucket
    requires chunks != []
  {
    Bucket(PutObjects(b.objects, chunks), b.manifests[chunks[0].ManifestOf() := KeysOf(chunks)])
  }

  function PutObjects(objects: map<ChunkKey, Chunk>, chunks: seq<Chunk>): map<ChunkKey, Chunk> {
    if chunks == [] then objects
    else PutObjects(objects, chunks[..|chunks| - 1])[chunks[|chunks| - 1].Key() := chunks[|chunks| - 1]]
  }

  lemma {:induction false} PutObjectsFacts(objects: map<ChunkKey, Chunk>, chunks: seq<Chunk>)
    ensures forall k :: k in PutObjects(objects, chunks) <==> k in objects || k in KeysOf(chunks)
    ensures forall k :: k in PutObjects(objects, chunks) && k !in KeysOf(chunks) ==>
              PutObjects(objects, chunks)[k] == objects[k]
    ensures forall k :: k in KeysOf(chunks) ==>
              PutObjects(objects, chunks)[k] in chunks && PutObjects(objects, chunks)[k].Key() == k
  {
    if chunks != [] {
      var n := |chunks| - 1;
      PutObjectsFacts(objects, chunks[..n]);
      assert KeysOf(chunks) == KeysOf(chunks[..n]) + [chunks[n].Key()];
      assert chunks == chunks[..n] + [chunks[n]];
    }
  }

  lemma RecoverableExactlyWhenCovered(b: Bucket, chunks: seq<Chunk>)
    requires Recoverable(b) && chunks != [] && OneGeneration(chunks)
    ensures Recoverable(Complete(b, chunks)) <==> Covers(b, chunks)
  {
    var t, m := Complete(b, chunks), chunks[0].ManifestOf();
    PutObjectsFacts(b.objects, chunks);
    if Covers(b, chunks) {
      BatchKeepsRecoverable(b, t, chunks);
    }
    if Recoverable(t) {
      assert Exact(t, m);
      forall o, k | o in b.manifests && o != m && k in KeysOf(chunks) && Belongs(k, o) ensures k in b.manifests[o] {
        assert Exact(t, o);
      }
    }
  }

  /** Two batches for one generation: the second forgets the first one's object. */
  lemma SecondBatchForgetsTheFirst()
    ensures var first := Chunk("t", "d", "g", "1", "x");
            var second := Chunk("t", "d", "g", "2", "y");
            var one := Complete(Bucket(map[], map[]), [first]);
            Recoverable(one) && !Recoverable(Complete(one, [second]))
  {
    var first, second := Chunk("t", "d", "g", "1", "x"), Chunk("t", "d", "g", "2", "y");
    var empty := Bucket(map[], map[]);
    assert forall m :: Exact(empty, m);
    RecoverableExactlyWhenCovered(empty, [first]);
    var one := Complete(empty, [first]);
    PutObjectsFacts(empty.objects, [first]);
    assert first.Key() in KeysOf([first]) by {
      assert KeysOf([first])[0] == first.Key();
    }
    assert first.Key() in one.objects;
    forall k | k in KeysOf([second]) ensures k == second.Key() {
    }
    assert first.Key().chunk[0] != second.Key().chunk[0];
    RecoverableExactlyWhenCovered(one, [second]);
  }

  /** An object of an earlier batch that lands late: harmless where its generation still has
      that manifest or has none. */
  lemma LateObjectKeepsRecoverable(b: Bucket, chunk: Chunk)
    requires Recoverable(b)
    requires forall m :: m in b.manifests && Belongs(chunk.Key(), m) ==> chunk.Key() in b.manifests[m]
    ensures Recoverable(b.(objects := b.objects[chunk.Key() := chunk]))
  {
    var t := b.(objects := b.objects[chunk.Key() := chunk]);
    forall m ensures Exact(t, m) {
      assert Exact(b, m);
    }
  }

  lemma DeleteKeepsRecoverable(b: Bucket, t: Bucket, m: Manifest, completed: bool)
    requires Recoverable(b) && GenerationDeleted(b, t, m, completed)
    ensures Recoverable(t)
  {
    forall o ensures Exact(t, o) {
      assert Exact(b, o);
    }
  }

  // ---------------------------------------------------------------- runs

  datatype Step = Put(chunks: seq<Chunk>) | LatePut(chunk: Chunk) | Delete(m: Manifest)

  /** One batch per generation, late objects only of a batch whose manifest stands or was
      deleted, and deletions that may break off. */
  ghost predicate StepAllowed(b: Bucket, t: Bucket, step: Step) {
    match step
    case Put(chunks) => BatchPut(b, t, chunks) && Covers(b, chunks)
    case LatePut(chunk) =>
      && t == b.(objects := b.objects[chunk.Key() := chunk])
      && forall m :: m in b.manifests && Belongs(chunk.Key(), m) ==> chunk.Key() in b.manifests[m]
    case Delete(m) => GenerationDeleted(b, t, m, false)
  }

  ghost predicate IsRun(states: seq<Bucket>, steps: seq<Step>) {
    |states| == |steps| + 1
    && forall i {:trigger steps[i]} :: 0 <= i < |steps| ==> StepAllowed(states[i], states[i + 1], steps[i])
  }

  lemma {:induction false} RunKeepsRecoverable(states: seq<Bucket>, steps: seq<Step>)
    requires IsRun(states, steps) && Recoverable(states[0])
    ensures Recoverable(states[|states| - 1])
    decreases |steps|
  {
    if steps != [] {
      var n := |steps| - 1;
      assert forall i :: 0 <= i < n ==> steps[..n][i] == steps[i];
      RunKeepsRecoverable(states[..n + 1], steps[..n]);
      assert StepAllowed(states[n], states[n + 1], steps[n]);
      match steps[n]
      case Put(chunks) => BatchKeepsRecoverable(states[n], states[n + 1], chunks);
      case LatePut(chunk) => LateObjectKeepsRecoverable(states[n], chunk);
      case Delete(m) => DeleteKeepsRecoverable(states[n], states[n + 1], m, false);
    }
  }

  /** After any such run, one completed deletion removes every object of the generation, late
      ones included, and nothing else. */
  lemma CompletedDeletionRemovesAll(states: seq<Bucket>, steps: seq<Step>, t: Bucket, m: Manifest)
    requires IsRun(states, steps) && Recoverable(states[0])
    requires GenerationDeleted(states[|states| - 1], t, m, true)
    ensures forall k :: k in t.objects <==> k in states[|states| - 1].objects && !Belongs(k, m)
    ensures forall k :: k in t.objects ==> t.objects[k] == states[|states| - 1].objects[k]
    ensures t.manifests == states[|states| - 1].manifests - {m}
  {
    RunKeepsRecoverable(states, steps);
    assert Exact(states[|states| - 1], m);
  }

  // ---------------------------------------------------------------- the store

  predicate OfDocument(m: Manifest, tenant: string, document: string) {
    m.tenant == tenant && m.document == document
  }

  /** The document has a manifest for the object's generation. */
  ghost predicate InDocument(manifests: map<Manifest, seq<ChunkKey>>, k: ChunkKey, tenant: string, document: string) {
    exists m :: m in manifests && OfDocument(m, tenant, document) && Belongs(k, m)
  }

  datatype Outcome = Done | Mixed | Broken

  class S3ChunkStore {
    var objects: map<ChunkKey, Chunk>
    var manifests: map<Manifest, seq<ChunkKey>>

    ghost function Contents(): Bucket
      reads this
    {
      Bucket(objects, manifests)
    }

    constructor ()
      ensures Contents() == Bucket(map[], map[]) && Recoverable(Contents())
    {
      objects, manifests := map[], map[];
      new;
      assert forall m :: Exact(Contents(), m);
    }

    method PutBatch(chunks: seq<Chunk>) returns (outcome: Outcome)
      modifies this
      ensures outcome == Mixed <==> !OneGeneration(chunks)
      ensures outcome == Mixed || chunks == [] ==> Contents() == old(Contents())
      ensures outcome != Mixed && chunks != [] ==> BatchPut(old(Contents()), Contents(), chunks)
      ensures outcome == Done && chunks != [] ==>
                && manifests == old(manifests)[chunks[0].ManifestOf() := KeysOf(chunks)]
                && AllPut(objects, chunks)
      ensures chunks != [] && old(Recoverable(Contents()) && Covers(Contents(), chunks)) ==> Recoverable(Contents())
    {
      if chunks == [] {
        return Done;
      }
      if exists i :: 0 <= i < |chunks| && chunks[i].ManifestOf() != chunks[0].ManifestOf() {
        return Mixed;
      }
      ghost var before := Contents();
      var written: bool := *;
      if !written {
        return Broken;
      }
      manifests := manifests[chunks[0].ManifestOf() := KeysOf(chunks)];
      outcome := PutObjectsConcurrently(chunks);
      if Recoverable(before) && Covers(before, chunks) {
        BatchKeepsRecoverable(before, Contents(), chunks);
      }
    }

    /** gather over the object puts: in any order, and any of them may fail. */
    method PutObjectsConcurrently(chunks: seq<Chunk>) returns (outcome: Outcome)
      modifies this`objects
      ensures outcome == Done || outcome == Broken
      ensures ObjectsPut(old(objects), objects, chunks)
      ensures outcome == Done ==> AllPut(objects, chunks)
    {
      var waiting := chunks;
      outcome := Done;
      while waiting != []
        invariant outcome == Done || outcome == Broken
        invariant forall c :: c in waiting ==> c in chunks
        invariant ObjectsPut(old(objects), objects, chunks)
        invariant outcome == Done ==> forall i :: 0 <= i < |chunks| ==> chunks[i] in waiting || Held(objects, chunks, i)
        decreases |waiting|
      {
        var p: int := *;
        p := if 0 <= p < |waiting| then p else 0;
        var next := waiting[p];
        assert next in waiting;
        var lands: bool := *;
        if lands {
          ObjectLands(old(objects), objects, chunks, next);
          objects := objects[next.Key() := next];
        } else {
          outcome := Broken;
        }
        ghost var before := waiting;
        waiting := waiting[..p] + waiting[p + 1..];
        assert forall c :: c in before ==> c == next || c in waiting;
      }
    }

    /** delete_keys: batches of a thousand, each of which may report errors. */
    method DeleteKeys(keys: seq<ChunkKey>) returns (ok: bool)
      modifies this`objects
      ensures forall k :: k in objects ==> k in old(objects) && objects[k] == old(objects)[k]
      ensures forall k :: k in old(objects) && k !in keys ==> k in objects
      ensures ok ==> forall k :: k in keys ==> k !in objects
    {
      var offset := 0;
      while offset < |keys|
        invariant 0 <= offset <= |keys|
        invariant forall k :: k in objects ==> k in old(objects) && objects[k] == old(objects)[k]
        invariant forall k :: k in old(objects) && k !in keys ==> k in objects
        invariant forall i :: 0 <= i < offset ==> keys[i] !in objects
      {
        var end := if offset + 1000 < |keys| then offset + 1000 else |keys|;
        var batch := set i | offset <= i < end :: keys[i];
        var reported: set<ChunkKey> := *;
        objects := objects - (batch - reported);
        if batch * reported != {} {
          return false;
        }
        forall i | offset <= i < end ensures keys[i] !in objects {
          assert keys[i] in batch && keys[i] !in batch * reported;
        }
        offset := end;
      }
      ok := true;
    }

    method DeleteGeneration(m: Manifest) returns (ok: bool)
      modifies this
      ensures GenerationDeleted(old(Contents()), Contents(), m, ok)
      ensures old(Recoverable(Contents())) ==> Recoverable(Contents())
    {
      ghost var before := Contents();
      var loaded: bool := *;
      if !loaded {
        return false;
      }
      var keys;
      if m in manifests {
        keys := manifests[m];
      } else {
        keys := ListObjects(m);
      }
      assert forall k :: k in keys <==> k in Doomed(before, m);
      ok := DeleteKeys(keys);
      if ok {
        var landed: bool := *;
        if landed {
          manifests := manifests - {m};
        }
        ok := *;
        ok := ok && landed;
      }
      if Recoverable(before) {
        DeleteKeepsRecoverable(before, Contents(), m, ok);
      }
    }

    /** Every generation with a manifest of the document is deleted, in whatever order the
        listing gives.  Completed, this leaves exactly the objects of generations for which
        the document had no manifest: an object that landed after its generation was deleted
        is not found again this way. */
    method DeleteDocument(tenant: string, document: string) returns (ok: bool)
      requires Recoverable(Contents())
      modifies this
      ensures Recoverable(Contents())
      ensures forall k :: k in objects ==> k in old(objects) && objects[k] == old(objects)[k]
      ensures forall k :: k in old(objects) && !InDocument(old(manifests), k, tenant, document) ==> k in objects
      ensures ok ==> forall k :: k in objects ==> !InDocument(old(manifests), k, tenant, document)
      ensures ok ==> forall m :: m in manifests <==> m in old(manifests) && !OfDocument(m, tenant, document)
      ensures forall m :: m in manifests ==> m in old(manifests) && manifests[m] == old(manifests)[m]
    {
      var listed := set m | m in manifests && OfDocument(m, tenant, document);
      ok := true;
      while listed != {} && ok
        invariant Recoverable(Contents())
        invariant forall m :: m in listed ==> m in manifests && m in old(manifests) && OfDocument(m, tenant, document)
        invariant forall k :: k in objects ==> k in old(objects) && objects[k] == old(objects)[k]
        invariant forall k :: k in old(objects) && !InDocument(old(manifests), k, tenant, document) ==> k in objects
        invariant forall m :: m in manifests ==> m in old(manifests) && manifests[m] == old(manifests)[m]
        invariant forall m :: m in old(manifests) && !OfDocument(m, tenant, document) ==> m in manifests
        invariant ok ==> forall m :: m in manifests && OfDocument(m, tenant, document) ==> m in listed
        invariant ok ==> forall m, k :: m in old(manifests) && OfDocument(m, tenant, document) && m !in listed ==>
                                          k in objects ==> !Belongs(k, m)
        decreases |listed|
      {
        var m :| m in listed;
        ghost var b := Contents();
        assert Exact(b, m);
        ok := DeleteGeneration(m);
        listed := listed - {m};
      }
    }

    /** The objects below the generation's key prefix, in whatever order they come. */
    method ListObjects(m: Manifest) returns (keys: seq<ChunkKey>)
      ensures forall k :: k in keys <==> k in objects && Belongs(k, m)
    {
      keys := [];
      var left := set k | k in objects && Belongs(k, m);
      ghost var all := left;
      while left != {}
        invariant left <= all
        invariant forall k :: k in keys <==> k in all && k !in left
        decreases |left|
      {
        var k :| k in left;
        keys := keys + [k];
        left := left - {k};
      }
    }
  }
}
