/** ParagraphChunker.chunk: sections are normalised, cut into windows and numbered. */
module Chunking {
  import opened Decimals
  import opened Entities
  import opened Normalization
  import opened Pieces
  import opened PythonStrings
  import opened Windows

  datatype Section = Section(title: string, content: string, pageNumber: Option<nat>)

  datatype ExtractedDocument = ExtractedDocument(
    tenant: string, document: string, sourceVersion: string, sections: seq<Section>)

  /** The fields that chunk computes; the others are copied from the document.  id is the
      material whose SHA-256 is the chunk id. */
  datatype DocumentChunk = DocumentChunk(
    tenant: string, document: string, sourceVersion: string, id: string, generation: GenerationId, section: string,
    content: string, sequence: nat, startOffset: int, endOffset: int, chunkingVersion: string,
    pageNumber: Option<nat>, createdAt: int)

  datatype Outcome = Chunks(chunks: seq<DocumentChunk>) | IdentityMismatch

  /** A window and the section that it was cut from. */
  datatype Piece = Piece(section: Section, window: Window)

  predicate SameIdentity(d: Document, x: ExtractedDocument) {
    d.tenant == x.tenant && d.id == x.document && d.sourceVersion == x.sourceVersion
  }

  const NUL := 0 as char

  function Prefix(d: Document, version: string): string {
    d.tenant + [NUL] + d.id + [NUL] + d.sourceVersion + [NUL] + version + [NUL]
  }

  /** The seven parts joined by NUL. */
  function ChunkId(d: Document, version: string, sequence: nat, section: string, content: string): string {
    Prefix(d, version) + (Decimal(sequence) + [NUL] + (section + [NUL] + content))
  }

  function MakeChunk(d: Document, version: string, generation: GenerationId, createdAt: int,
                     sequence: nat, piece: Piece): DocumentChunk {
    DocumentChunk(d.tenant, d.id, d.sourceVersion,
                  ChunkId(d, version, sequence, piece.section.title, piece.window.content),
                  generation, piece.section.title,
                  piece.window.content, sequence, piece.window.start, piece.window.end, version,
                  piece.section.pageNumber, createdAt)
  }

  function Tagged(section: Section, windows: seq<Window>): (ps: seq<Piece>)
    ensures |ps| == |windows| && forall k :: 0 <= k < |ps| ==> ps[k] == Piece(section, windows[k])
  {
    seq(|windows|, k requires 0 <= k < |windows| => Piece(section, windows[k]))
  }

  function PiecesOf(cfg: ChunkingConfig): Section -> seq<Piece>
    requires cfg.Valid()
  {
    (section: Section) => Tagged(section, WindowsOf(cfg, Normalized(section.content)))
  }

  function AllPieces(cfg: ChunkingConfig, sections: seq<Section>): seq<Piece>
    requires cfg.Valid()
  {
    FlatMap(PiecesOf(cfg), sections)
  }

  /** chunks are the pieces in order, numbered from zero. */
  predicate Numbered(d: Document, version: string, generation: GenerationId, createdAt: int,
                     pieces: seq<Piece>, chunks: seq<DocumentChunk>) {
    && |chunks| == |pieces|
    && forall k :: 0 <= k < |chunks| ==> chunks[k] == MakeChunk(d, version, generation, createdAt, k, pieces[k])
  }

  /** The inner loop: one chunk for each window of a section. */
  method AppendWindows(d: Document, version: string, generation: GenerationId, createdAt: int, section: Section,
                       windows: seq<Window>, before: seq<DocumentChunk>, ghost pieces: seq<Piece>)
    returns (chunks: seq<DocumentChunk>)
    requires Numbered(d, version, generation, createdAt, pieces, before)
    ensures Numbered(d, version, generation, createdAt, pieces + Tagged(section, windows), chunks)
  {
    chunks := before;
    var sequence := |before|;
    ghost var done := pieces;
    for j := 0 to |windows|
      invariant sequence == |chunks| == |pieces| + j
      invariant done == pieces + Tagged(section, windows)[..j]
      invariant Numbered(d, version, generation, createdAt, done, chunks)
    {
      var piece := Piece(section, windows[j]);
      chunks := chunks + [MakeChunk(d, version, generation, createdAt, sequence, piece)];
      sequence := sequence + 1;
      done := done + [piece];
    }
    assert Tagged(section, windows)[..|windows|] == Tagged(section, windows);
  }

  lemma OneMoreSection(cfg: ChunkingConfig, sections: seq<Section>, i: nat)
    requires cfg.Valid() && i < |sections|
    ensures AllPieces(cfg, sections[..i + 1]) ==
              AllPieces(cfg, sections[..i]) + Tagged(sections[i], WindowsOf(cfg, Normalized(sections[i].content)))
  {
    FlatMapOneMore(PiecesOf(cfg), sections, i);
  }

  lemma NoWindowsInNothing(cfg: ChunkingConfig)
    requires cfg.Valid()
    ensures WindowsOf(cfg, "") == []
  {
  }

  method Chunk(cfg: ChunkingConfig, version: string, d: Document,
               extracted: ExtractedDocument, generation: GenerationId, createdAt: int)
    returns (r: Outcome)
    requires cfg.Valid()
    ensures r.IdentityMismatch? <==> !SameIdentity(d, extracted)
    ensures r.Chunks? ==> Numbered(d, version, generation, createdAt, AllPieces(cfg, extracted.sections), r.chunks)
  {
    if !SameIdentity(d, extracted) {
      return IdentityMismatch;
    }
    var chunks: seq<DocumentChunk> := [];
    ghost var pieces: seq<Piece> := [];
    for i := 0 to |extracted.sections|
      invariant pieces == AllPieces(cfg, extracted.sections[..i])
      invariant Numbered(d, version, generation, createdAt, pieces, chunks)
    {
      var section := extracted.sections[i];
      OneMoreSection(cfg, extracted.sections, i);
      var normalized := Normalize(section.content);
      if normalized == "" {
        NoWindowsInNothing(cfg);
        assert pieces + [] == pieces;
        continue;
      }
      var windows := ComputeWindows(cfg, normalized);
      chunks := AppendWindows(d, version, generation, createdAt, section, windows, chunks, pieces);
      pieces := pieces + Tagged(section, windows);
    }
    assert extracted.sections[..|extracted.sections|] == extracted.sections;
    r := Chunks(chunks);
  }

  /** Every chunk is an exact, non-empty excerpt of its section's normalised text that
      begins and ends visibly, so the validators of DocumentChunk accept it. */
  lemma ChunksAreExcerpts(cfg: ChunkingConfig, sections: seq<Section>, k: nat)
    requires cfg.Valid() && k < |AllPieces(cfg, sections)|
    ensures var piece := AllPieces(cfg, sections)[k];
            && piece.section in sections
            && Exact(cfg, Normalized(piece.section.content), piece.window)
            && 0 < |piece.window.content| <= 200_000
  {
    var piece := AllPieces(cfg, sections)[k];
    InFlatMap(PiecesOf(cfg), sections, piece);
    var i :| 0 <= i < |sections| && piece in PiecesOf(cfg)(sections[i]);
    WindowsAreExact(cfg, Normalized(sections[i].content), piece.window);
  }

  /** Nothing visible is lost: a section's normalised text has the visible characters of its
      content, in order, and each of them is in some chunk of that section. */
  lemma ChunksShowEverything(cfg: ChunkingConfig, sections: seq<Section>, i: nat, p: nat)
    requires cfg.Valid() && i < |sections|
    requires p < |Normalized(sections[i].content)| && !IsSpace(Normalized(sections[i].content)[p])
    ensures Visible(Normalized(sections[i].content)) == Visible(sections[i].content)
    ensures exists k :: 0 <= k < |AllPieces(cfg, sections)|
                        && AllPieces(cfg, sections)[k].section == sections[i]
                        && Shows(AllPieces(cfg, sections)[k].window, p)
  {
    var text := Normalized(sections[i].content);
    NormalizationKeepsVisible(sections[i].content);
    NoVisibleCharacterIsLost(cfg, text, p);
    var w :| w in WindowsOf(cfg, text) && Shows(w, p);
    var piece := Piece(sections[i], w);
    var j :| 0 <= j < |WindowsOf(cfg, text)| && WindowsOf(cfg, text)[j] == w;
    assert PiecesOf(cfg)(sections[i])[j] == piece;
    InFlatMap(PiecesOf(cfg), sections, piece);
    var k :| 0 <= k < |AllPieces(cfg, sections)| && AllPieces(cfg, sections)[k] == piece;
  }

  /** The ids of two chunks of one call differ, whatever their sections and contents hold:
      the sequence number is written in digits, and so it ends at the first NUL after the
      common prefix. */
  lemma ChunkIdsAreDistinct(d: Document, version: string, generation: GenerationId, createdAt: int,
                            pieces: seq<Piece>, chunks: seq<DocumentChunk>, j: nat, k: nat)
    requires Numbered(d, version, generation, createdAt, pieces, chunks)
    requires j < k < |chunks|
    ensures chunks[j].id != chunks[k].id
  {
    if chunks[j].id == chunks[k].id {
      var x := pieces[j].section.title + [NUL] + pieces[j].window.content;
      var y := pieces[k].section.title + [NUL] + pieces[k].window.content;
      var prefix := Prefix(d, version);
      assert (prefix + (Decimal(j) + [NUL] + x))[|prefix|..] == Decimal(j) + [NUL] + x;
      assert (prefix + (Decimal(k) + [NUL] + y))[|prefix|..] == Decimal(k) + [NUL] + y;
      NoSeparator(NUL, Decimal(j));
      NoSeparator(NUL, Decimal(k));
      CutAtFirst(NUL, Decimal(j), x, Decimal(k), y);
      DecimalInjective(j, k);
    }
  }

  /** The generation id digests fingerprint, job and token.  A fingerprint is hexadecimal and
      a token is written in digits, so the material determines all three, whatever the job
      id holds. */
  function GenerationMaterial(fingerprint: string, job: string, token: nat): string {
    fingerprint + [NUL] + (job + [NUL] + Decimal(token))
  }

  lemma GenerationIdsAreDistinct(f: string, job: string, token: nat, f': string, job': string, token': nat)
    requires NUL !in f && NUL !in f'
    requires GenerationMaterial(f, job, token) == GenerationMaterial(f', job', token')
    ensures f == f' && job == job' && token == token'
  {
    CutAtFirst(NUL, f, job + [NUL] + Decimal(token), f', job' + [NUL] + Decimal(token'));
    NoSeparator(NUL, Decimal(token));
    NoSeparator(NUL, Decimal(token'));
    CutAtLast(NUL, job, Decimal(token), job', Decimal(token'));
    DecimalInjective(token, token');
  }
}
