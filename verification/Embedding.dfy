/** _embed_chunks: batches of texts go to the provider, every answer is checked, and each
    chunk gets its own vector. */
module Embedding {
  import opened Chunking
  import opened Entities
  import opened InMemoryStores

  datatype EmbeddingProfile = EmbeddingProfile(model: string, dimensions: nat)

  datatype EmbeddingResponse = EmbeddingResponse(model: string, dimensions: nat, vectors: seq<seq<Float>>)

  /** A foreign service: any answer, or an exception.  answered is what it ever said about
      which text, in order. */
  class EmbeddingProvider {
    ghost var answered: seq<(string, seq<Float>)>

    constructor ()
      ensures answered == []
    {
      answered := [];
    }

    method Embed(texts: seq<string>) returns (r: Option<EmbeddingResponse>)
      modifies this
      ensures r.Some? && |r.value.vectors| == |texts| ==> answered == old(answered) + Paired(texts, r.value.vectors)
      ensures r.None? || |r.value.vectors| != |texts| ==> answered == old(answered)
    {
      r := *;
      if r.Some? && |r.value.vectors| == |texts| {
        answered := answered + Paired(texts, r.value.vectors);
      }
    }
  }

  ghost function Paired(texts: seq<string>, vectors: seq<seq<Float>>): (ps: seq<(string, seq<Float>)>)
    requires |texts| == |vectors|
    ensures |ps| == |texts| && forall i :: 0 <= i < |ps| ==> ps[i] == (texts[i], vectors[i])
  {
    seq(|texts|, i requires 0 <= i < |texts| => (texts[i], vectors[i]))
  }

  function Contents(chunks: seq<DocumentChunk>): (texts: seq<string>)
    ensures |texts| == |chunks| && forall i :: 0 <= i < |texts| ==> texts[i] == chunks[i].content
  {
    seq(|chunks|, i requires 0 <= i < |chunks| => chunks[i].content)
  }

  function RecordOf(chunk: DocumentChunk, vector: seq<Float>, profile: EmbeddingProfile,
                    pipelineVersion: string): VectorRecord {
    VectorRecord(chunk.tenant, chunk.document, chunk.id, chunk.generation, chunk.sourceVersion, vector, profile.model,
                 profile.dimensions, pipelineVersion)
  }

  predicate Acceptable(profile: EmbeddingProfile, vector: seq<Float>) {
    |vector| == profile.dimensions && forall i :: 0 <= i < |vector| ==> vector[i].Finite?
  }

  /** One record per chunk, in order, holding the vector that was answered for its text. */
  ghost predicate Embedded(chunks: seq<DocumentChunk>, profile: EmbeddingProfile, pipelineVersion: string,
                           answers: seq<(string, seq<Float>)>, records: seq<VectorRecord>) {
    && |answers| == |chunks| == |records|
    && forall i :: 0 <= i < |chunks| ==>
         && answers[i].0 == chunks[i].content
         && Acceptable(profile, answers[i].1)
         && records[i] == RecordOf(chunks[i], answers[i].1, profile, pipelineVersion)
  }

  datatype Embeddings = Embeddings(records: seq<VectorRecord>) | InvalidResponse | ProviderRaised

  /** The inner loop: one batch of vectors, checked and recorded. */
  method RecordBatch(batch: seq<DocumentChunk>, vectors: seq<seq<Float>>, profile: EmbeddingProfile,
                     pipelineVersion: string)
    returns (r: Option<seq<VectorRecord>>)
    requires |vectors| == |batch|
    ensures r.Some? <==> forall i :: 0 <= i < |vectors| ==> Acceptable(profile, vectors[i])
    ensures r.Some? ==> Embedded(batch, profile, pipelineVersion, Paired(Contents(batch), vectors), r.value)
  {
    var records: seq<VectorRecord> := [];
    for i := 0 to |batch|
      invariant |records| == i
      invariant forall j :: 0 <= j < i ==> Acceptable(profile, vectors[j])
                                           && records[j] == RecordOf(batch[j], vectors[j], profile, pipelineVersion)
    {
      if |vectors[i]| != profile.dimensions || exists k :: 0 <= k < |vectors[i]| && vectors[i][k].NotFinite? {
        return None;
      }
      records := records + [RecordOf(batch[i], vectors[i], profile, pipelineVersion)];
    }
    r := Some(records);
  }

  lemma EmbeddedAppend(a: seq<DocumentChunk>, b: seq<DocumentChunk>,
                       x: seq<(string, seq<Float>)>, y: seq<(string, seq<Float>)>,
                       ra: seq<VectorRecord>, rb: seq<VectorRecord>, profile: EmbeddingProfile, pipelineVersion: string)
    requires Embedded(a, profile, pipelineVersion, x, ra) && Embedded(b, profile, pipelineVersion, y, rb)
    ensures Embedded(a + b, profile, pipelineVersion, x + y, ra + rb)
  {
  }

  lemma Associative<T>(a: seq<T>, b: seq<T>, c: seq<T>)
    ensures (a + b) + c == a + (b + c)
  {
  }

  method EmbedChunks(provider: EmbeddingProvider, chunks: seq<DocumentChunk>, profile: EmbeddingProfile,
                     pipelineVersion: string, batchSize: nat)
    returns (r: Embeddings, ghost answers: seq<(string, seq<Float>)>)
    requires 1 <= batchSize <= 256
    modifies provider
    ensures r.Embeddings? ==> provider.answered == old(provider.answered) + answers
    ensures r.Embeddings? ==> Embedded(chunks, profile, pipelineVersion, answers, r.records)
  {
    var records: seq<VectorRecord> := [];
    var offset := 0;
    ghost var before := provider.answered;
    answers := [];
    while offset < |chunks|
      invariant 0 <= offset <= |chunks|
      invariant provider.answered == before + answers
      invariant Embedded(chunks[..offset], profile, pipelineVersion, answers, records)
    {
      var end := if offset + batchSize < |chunks| then offset + batchSize else |chunks|;
      var batch := chunks[offset..end];
      var texts := Contents(batch);
      var answer := provider.Embed(texts);
      if answer.None? {
        return ProviderRaised, answers;
      }
      var response := answer.value;
      if || response.model != profile.model
         || response.dimensions != profile.dimensions
         || |response.vectors| != |batch| {
        return InvalidResponse, answers;
      }
      var checked := RecordBatch(batch, response.vectors, profile, pipelineVersion);
      if checked.None? {
        return InvalidResponse, answers;
      }
      ghost var said := Paired(texts, response.vectors);
      EmbeddedAppend(chunks[..offset], batch, answers, said, records, checked.value, profile, pipelineVersion);
      assert chunks[..end] == chunks[..offset] + batch;
      Associative(before, answers, said);
      answers := answers + said;
      records := records + checked.value;
      offset := end;
    }
    assert chunks[..|chunks|] == chunks;
    r := Embeddings(records);
  }
}
