/** The window loop of the paragraph chunker (chunking.py). */
module Windows {
  import opened Pieces
  import opened PythonStrings

  datatype ChunkingConfig = ChunkingConfig(maxCharacters: int, overlapCharacters: int, minimumCharacters: int)
  {
    /** The field bounds and validate_ranges. */
    predicate Valid() {
      && 100 <= maxCharacters <= 50_000
      && 0 <= overlapCharacters <= 10_000
      && 1 <= minimumCharacters <= 10_000
      && overlapCharacters < maxCharacters
      && minimumCharacters <= maxCharacters
    }
  }

  /** A raw window text[start..end], before it is stripped. */
  datatype Span = Span(start: nat, end: nat)

  datatype Window = Window(start: int, end: int, content: string)

  function Min(a: int, b: int): int { if a < b then a else b }

  function Max(a: int, b: int): int { if a < b then b else a }

  function ProposedEnd(cfg: ChunkingConfig, text: string, start: nat): int {
    Min(start + cfg.maxCharacters, |text|)
  }

  /** The last paragraph break in reach, else the last space, else the proposed end. */
  function PreferredBoundary(cfg: ChunkingConfig, text: string, start: nat, proposedEnd: nat): (end: int)
    requires cfg.Valid() && start < proposedEnd <= |text|
    ensures start < end <= proposedEnd
    ensures proposedEnd == |text| ==> end == |text|
    ensures end < proposedEnd ==>
              && start + cfg.minimumCharacters <= end
              && (OccursAt(text, "\n\n", end) || text[end] == ' ')
  {
    if proposedEnd >= |text| then proposedEnd
    else
      var minimumEnd := Min(start + cfg.minimumCharacters, proposedEnd);
      var paragraphEnd := RFind(text, "\n\n", minimumEnd, proposedEnd);
      if paragraphEnd >= minimumEnd then paragraphEnd
      else
        var wordEnd := RFind(text, " ", minimumEnd, proposedEnd);
        if wordEnd >= minimumEnd then wordEnd else proposedEnd
  }

  /** Nothing better was in reach: no later paragraph break than the end chosen, and, where
      the end is not a paragraph break, no later space and no paragraph break at all. */
  lemma BoundaryIsBest(cfg: ChunkingConfig, text: string, start: nat, proposedEnd: nat, at: nat)
    requires cfg.Valid() && start < proposedEnd < |text|
    requires start + cfg.minimumCharacters <= at < proposedEnd
    ensures var end := PreferredBoundary(cfg, text, start, proposedEnd);
            && (OccursAt(text, "\n\n", at) && at + 2 <= proposedEnd ==>
                at <= end < proposedEnd && OccursAt(text, "\n\n", end))
            && (text[at] == ' ' ==> end < proposedEnd && (at <= end || OccursAt(text, "\n\n", end)))
  {
    var minimumEnd := Min(start + cfg.minimumCharacters, proposedEnd);
    if text[at] == ' ' {
      assert text[at..at + 1] == " ";
      assert OccursAt(text, " ", at);
    }
  }

  function WindowEnd(cfg: ChunkingConfig, text: string, cursor: nat): (end: int)
    requires cfg.Valid() && cursor < |text|
    ensures cursor < end <= |text| && end - cursor <= cfg.maxCharacters
  {
    PreferredBoundary(cfg, text, cursor, ProposedEnd(cfg, text, cursor))
  }

  function NextCursor(cfg: ChunkingConfig, cursor: nat, end: nat): (next: nat)
    requires cfg.Valid() && cursor < end
    ensures cursor < next <= end && end - next <= cfg.overlapCharacters
  {
    var next := Max(0, end - cfg.overlapCharacters);
    if next <= cursor then end else next
  }

  /** The raw windows from a cursor on. */
  function Spans(cfg: ChunkingConfig, text: string, cursor: nat): (spans: seq<Span>)
    requires cfg.Valid() && cursor < |text|
    ensures spans != [] && spans[0].start == cursor
    decreases |text| - cursor
  {
    var end := WindowEnd(cfg, text, cursor);
    if end >= |text| then [Span(cursor, end)]
    else [Span(cursor, end)] + Spans(cfg, text, NextCursor(cfg, cursor, end))
  }

  /** The window that a raw window leaves behind, if it shows anything. */
  function Emitted(text: string, span: Span): seq<Window>
    requires span.start <= span.end <= |text|
  {
    var first, last := FirstVisible(text, span.start, span.end), LastVisible(text, span.start, span.end);
    if first >= last then [] else [Window(first, last, text[first..last])]
  }

  lemma EmittedFacts(text: string, span: Span)
    requires span.start <= span.end <= |text|
    ensures Emitted(text, span) == [] <==> forall p :: span.start <= p < span.end ==> IsSpace(text[p])
    ensures forall w :: w in Emitted(text, span) ==>
              && span.start <= w.start < w.end <= span.end && w.content == text[w.start..w.end]
              && !IsSpace(text[w.start]) && !IsSpace(text[w.end - 1])
              && (forall p :: span.start <= p < w.start || w.end <= p < span.end ==> IsSpace(text[p]))
  {
    FirstVisibleFacts(text, span.start, span.end);
    LastVisibleFacts(text, span.start, span.end);
  }

  predicate InText(text: string, spans: seq<Span>) {
    forall k :: 0 <= k < |spans| ==> spans[k].start < spans[k].end <= |text|
  }

  function Emitter(text: string): Span -> seq<Window> {
    (span: Span) => if span.start <= span.end <= |text| then Emitted(text, span) else []
  }

  // ---------------------------------------------------------------- raw windows

  /** Of two consecutive raw windows: the cursor advances, nothing is skipped, and at most
      overlapCharacters are repeated. */
  predicate Linked(cfg: ChunkingConfig, a: Span, b: Span) {
    a.start < b.start <= a.end && a.end - b.start <= cfg.overlapCharacters
  }

  predicate Chained(cfg: ChunkingConfig, spans: seq<Span>) {
    forall k :: 0 <= k < |spans| - 1 ==> Linked(cfg, spans[k], spans[k + 1])
  }

  predicate Sized(cfg: ChunkingConfig, text: string, span: Span) {
    span.start < span.end <= |text| && span.end - span.start <= cfg.maxCharacters
  }

  lemma {:induction false} SpansChain(cfg: ChunkingConfig, text: string, cursor: nat)
    requires cfg.Valid() && cursor < |text|
    ensures var spans := Spans(cfg, text, cursor);
            && Chained(cfg, spans)
            && spans[|spans| - 1].end == |text|
            && (forall k :: 0 <= k < |spans| ==> Sized(cfg, text, spans[k]))
    decreases |text| - cursor
  {
    var end := WindowEnd(cfg, text, cursor);
    if end < |text| {
      var next := NextCursor(cfg, cursor, end);
      SpansChain(cfg, text, next);
      SpansPrepend(cfg, text, Span(cursor, end), Spans(cfg, text, next));
    }
  }

  lemma SpansPrepend(cfg: ChunkingConfig, text: string, span: Span, rest: seq<Span>)
    requires rest != [] && Linked(cfg, span, rest[0]) && Chained(cfg, rest)
    requires Sized(cfg, text, span) && forall k :: 0 <= k < |rest| ==> Sized(cfg, text, rest[k])
    ensures var spans := [span] + rest;
            && Chained(cfg, spans)
            && spans[|spans| - 1] == rest[|rest| - 1]
            && (forall k :: 0 <= k < |spans| ==> Sized(cfg, text, spans[k]))
  {
    var spans := [span] + rest;
    forall k | 0 <= k < |spans| - 1 ensures Linked(cfg, spans[k], spans[k + 1]) {
      if k > 0 {
        assert Linked(cfg, rest[k - 1], rest[k - 1 + 1]);
      }
    }
  }

  /** The raw windows of a text, the empty text having none. */
  function SpansOf(cfg: ChunkingConfig, text: string): (spans: seq<Span>)
    requires cfg.Valid()
    ensures InText(text, spans)
  {
    if text == "" then []
    else
      SpansChain(cfg, text, 0);
      Spans(cfg, text, 0)
  }

  lemma {:induction false} ChainCovers(cfg: ChunkingConfig, spans: seq<Span>, p: nat)
    requires Chained(cfg, spans) && spans != [] && spans[0].start <= p < spans[|spans| - 1].end
    ensures exists k :: 0 <= k < |spans| && spans[k].start <= p < spans[k].end
    decreases |spans|
  {
    var n := |spans| - 1;
    if p < spans[n].start {
      assert Linked(cfg, spans[n - 1], spans[n - 1 + 1]);
      ChainCovers(cfg, spans[..n], p);
      var k :| 0 <= k < n && spans[..n][k].start <= p < spans[..n][k].end;
      assert spans[k].start <= p < spans[k].end;
    }
  }

  /** The raw windows cover the whole text. */
  lemma WindowsCoverTheText(cfg: ChunkingConfig, text: string, p: nat)
    requires cfg.Valid() && p < |text|
    ensures var spans := SpansOf(cfg, text);
            exists k :: 0 <= k < |spans| && spans[k].start <= p < spans[k].end
  {
    SpansChain(cfg, text, 0);
    ChainCovers(cfg, SpansOf(cfg, text), p);
  }

  // ---------------------------------------------------------------- emitted windows

  /** A text that begins with a visible character is found where the leading whitespace ends. */
  lemma FindSkipsWhitespace(text: string, start: nat, end: nat, f: nat, l: nat)
    requires start <= f < l <= end <= |text| && !IsSpace(text[f])
    requires forall p :: start <= p < f ==> IsSpace(text[p])
    ensures Find(text, text[f..l], start, end) == f
  {
    var content := text[f..l];
    assert OccursAt(text, content, f);
    var r := Find(text, content, start, end);
    assert r != -1 && text[r] == text[r..r + |content|][0] == content[0] == text[f];
  }

  /** raw is the text from start on. */
  predicate LiesAt(raw: string, text: string, start: nat) {
    start + |raw| <= |text| && forall p :: 0 <= p < |raw| ==> raw[p] == text[start + p]
  }

  lemma LeadOfWindow(text: string, start: nat, raw: string)
    requires LiesAt(raw, text, start)
    ensures Lead(raw) == FirstVisible(text, start, start + |raw|) - start
  {
    var f := FirstVisible(text, start, start + |raw|);
    FirstVisibleFacts(text, start, start + |raw|);
    FirstVisibleFacts(raw, 0, |raw|);
    assert f < start + |raw| ==> raw[f - start] == text[f];
  }

  lemma EndOfWindow(text: string, start: nat, raw: string)
    requires LiesAt(raw, text, start)
    ensures End(raw) == LastVisible(text, start, start + |raw|) - start
  {
    var l := LastVisible(text, start, start + |raw|);
    LastVisibleFacts(text, start, start + |raw|);
    LastVisibleFacts(raw, 0, |raw|);
    assert l > start ==> raw[l - start - 1] == text[l - 1];
  }

  lemma StripOfWindow(text: string, start: nat, raw: string)
    requires LiesAt(raw, text, start)
    ensures var f, l := FirstVisible(text, start, start + |raw|), LastVisible(text, start, start + |raw|);
            if f == start + |raw| then Strip(raw) == "" else f < l && Strip(raw) == text[f..l]
  {
    var f, l := FirstVisible(text, start, start + |raw|), LastVisible(text, start, start + |raw|);
    LeadOfWindow(text, start, raw);
    EndOfWindow(text, start, raw);
    if f < start + |raw| {
      LeadBeforeEnd(raw);
      CopyOfSlice(text, f, l, Strip(raw));
    }
  }

  lemma CopyOfSlice(text: string, f: nat, l: nat, content: string)
    requires f <= l <= |text| && |content| == l - f
    requires forall i :: 0 <= i < |content| ==> content[i] == text[f + i]
    ensures content == text[f..l]
  {
  }

  lemma StripOfSlice(text: string, start: nat, end: nat)
    requires start <= end <= |text|
    ensures var f, l := FirstVisible(text, start, end), LastVisible(text, start, end);
            if f == end then Strip(text[start..end]) == "" else f < l && Strip(text[start..end]) == text[f..l]
  {
    StripOfWindow(text, start, text[start..end]);
  }

  lemma FindTheContent(text: string, cursor: nat, end: nat, content: string)
    requires cursor <= end <= |text| && FirstVisible(text, cursor, end) < LastVisible(text, cursor, end)
    requires content == text[FirstVisible(text, cursor, end)..LastVisible(text, cursor, end)]
    ensures Find(text, content, cursor, end) == FirstVisible(text, cursor, end)
  {
    FirstVisibleFacts(text, cursor, end);
    FindSkipsWhitespace(text, cursor, end, FirstVisible(text, cursor, end), LastVisible(text, cursor, end));
  }

  /** The body of the loop: strip the window, search for what is left.  The first occurrence
      is where the content was cut, so the offsets are exact. */
  method WindowAt(text: string, cursor: nat, end: nat) returns (windows: seq<Window>)
    requires cursor <= end <= |text|
    ensures windows == Emitted(text, Span(cursor, end))
  {
    ghost var first, last := FirstVisible(text, cursor, end), LastVisible(text, cursor, end);
    var content := Strip(text[cursor..end]);
    assert if first == end then content == "" else first < last && content == text[first..last] by {
      StripOfSlice(text, cursor, end);
    }
    if content == "" {
      return [];
    }
    var contentStart := Find(text, content, cursor, end);
    assert contentStart == first by {
      FindTheContent(text, cursor, end, content);
    }
    var contentEnd := contentStart + |content|;
    windows := [Window(contentStart, contentEnd, content)];
  }

  /** An emitted window is the text between its offsets, begins and ends with a visible
      character, is neither empty nor too long, and passes the chunk's offset validator. */
  predicate Exact(cfg: ChunkingConfig, text: string, w: Window) {
    && 0 <= w.start < w.end <= |text|
    && w.content == text[w.start..w.end]
    && |w.content| <= cfg.maxCharacters
    && !IsSpace(text[w.start])
    && !IsSpace(text[w.end - 1])
  }

  lemma EmittedIsExact(cfg: ChunkingConfig, text: string, span: Span, w: Window)
    requires Sized(cfg, text, span) && w in Emitted(text, span)
    ensures Exact(cfg, text, w)
  {
    EmittedFacts(text, span);
  }

  /** Of two spans in order, the windows are in order: the first visible character after a
      later cursor is not an earlier one. */
  lemma EmittedInOrder(text: string, a: Span, b: Span, v: Window, w: Window)
    requires a.start <= a.end <= |text| && b.start <= b.end <= |text| && a.start <= b.start
    requires v in Emitted(text, a) && w in Emitted(text, b)
    ensures v.start <= w.start
  {
    EmittedFacts(text, a);
    EmittedFacts(text, b);
    assert !IsSpace(text[w.start]);
  }

  predicate Ordered(ws: seq<Window>) {
    forall i, j :: 0 <= i < j < |ws| ==> ws[i].start <= ws[j].start
  }

  /** Pieces that are in order, and of which each comes before the next ones. */
  lemma {:induction false} FlatMapInOrder(emit: Span -> seq<Window>, spans: seq<Span>)
    requires forall k :: 0 <= k < |spans| ==> Ordered(emit(spans[k]))
    requires forall i, j, v, w :: 0 <= i < j < |spans| && v in emit(spans[i]) && w in emit(spans[j]) ==>
             v.start <= w.start
    ensures Ordered(FlatMap(emit, spans))
  {
    if spans != [] {
      var rest := spans[1..];
      assert forall k :: 0 <= k < |rest| ==> rest[k] == spans[k + 1];
      FlatMapInOrder(emit, rest);
      forall v, w | v in emit(spans[0]) && w in FlatMap(emit, rest) ensures v.start <= w.start {
        InFlatMap(emit, rest, w);
      }
      OrderedConcatenation(emit(spans[0]), FlatMap(emit, rest));
    }
  }

  lemma OrderedConcatenation(a: seq<Window>, b: seq<Window>)
    requires Ordered(a) && Ordered(b) && forall v, w :: v in a && w in b ==> v.start <= w.start
    ensures Ordered(a + b)
  {
  }

  lemma {:induction false} StartsIncrease(cfg: ChunkingConfig, spans: seq<Span>, i: nat, j: nat)
    requires Chained(cfg, spans) && i <= j < |spans|
    ensures spans[i].start <= spans[j].start
    decreases j - i
  {
    if i < j {
      StartsIncrease(cfg, spans, i, j - 1);
      assert Linked(cfg, spans[j - 1], spans[j - 1 + 1]);
    }
  }

  function WindowsOf(cfg: ChunkingConfig, text: string): seq<Window>
    requires cfg.Valid()
  {
    FlatMap(Emitter(text), SpansOf(cfg, text))
  }

  lemma SpansInOrder(cfg: ChunkingConfig, text: string, spans: seq<Span>, i: nat, j: nat, v: Window, w: Window)
    requires InText(text, spans) && Chained(cfg, spans) && i < j < |spans|
    requires v in Emitter(text)(spans[i]) && w in Emitter(text)(spans[j])
    ensures v.start <= w.start
  {
    StartsIncrease(cfg, spans, i, j);
    EmittedInOrder(text, spans[i], spans[j], v, w);
  }

  lemma WindowsAreOrdered(cfg: ChunkingConfig, text: string)
    requires cfg.Valid()
    ensures Ordered(WindowsOf(cfg, text))
  {
    if text != "" {
      var spans, emit := SpansOf(cfg, text), Emitter(text);
      SpansChain(cfg, text, 0);
      forall i, j, v, w | 0 <= i < j < |spans| && v in emit(spans[i]) && w in emit(spans[j])
        ensures v.start <= w.start
      {
        SpansInOrder(cfg, text, spans, i, j, v, w);
      }
      forall k | 0 <= k < |spans| ensures Ordered(emit(spans[k])) {
        assert |emit(spans[k])| <= 1;
      }
      FlatMapInOrder(emit, spans);
    }
  }

  lemma WindowsAreExact(cfg: ChunkingConfig, text: string, w: Window)
    requires cfg.Valid() && w in WindowsOf(cfg, text)
    ensures Exact(cfg, text, w)
  {
    var spans := SpansOf(cfg, text);
    InFlatMap(Emitter(text), spans, w);
    SpansChain(cfg, text, 0);
    var k :| 0 <= k < |spans| && w in Emitter(text)(spans[k]);
    EmittedIsExact(cfg, text, spans[k], w);
  }

  predicate Shows(w: Window, p: int) { w.start <= p < w.end }

  /** Every visible character of the text lies in an emitted window. */
  lemma NoVisibleCharacterIsLost(cfg: ChunkingConfig, text: string, p: nat)
    requires cfg.Valid() && p < |text| && !IsSpace(text[p])
    ensures exists w :: w in WindowsOf(cfg, text) && Shows(w, p)
  {
    var spans := SpansOf(cfg, text);
    WindowsCoverTheText(cfg, text, p);
    var k :| 0 <= k < |spans| && spans[k].start <= p < spans[k].end;
    var span := spans[k];
    EmittedFacts(text, span);
    var w := Emitted(text, span)[0];
    assert w in Emitter(text)(spans[k]);
    InFlatMap(Emitter(text), spans, w);
    assert Shows(w, p);
  }

  // ---------------------------------------------------------------- the loop

  /** The raw windows that the loop still has to visit. */
  function SpansFrom(cfg: ChunkingConfig, text: string, cursor: nat): seq<Span>
    requires cfg.Valid() && cursor <= |text|
  {
    if cursor == |text| then [] else Spans(cfg, text, cursor)
  }

  /** One turn of the loop: where the next raw window begins. */
  function AfterWindow(cfg: ChunkingConfig, text: string, cursor: nat): (next: nat)
    requires cfg.Valid() && cursor < |text|
    ensures cursor < next <= |text|
  {
    var end := WindowEnd(cfg, text, cursor);
    if end >= |text| then |text| else NextCursor(cfg, cursor, end)
  }

  lemma LoopStep(cfg: ChunkingConfig, text: string, cursor: nat, emit: Span -> seq<Window>)
    requires cfg.Valid() && cursor < |text|
    ensures FlatMap(emit, SpansFrom(cfg, text, cursor)) ==
              emit(Span(cursor, WindowEnd(cfg, text, cursor)))
               + FlatMap(emit, SpansFrom(cfg, text, AfterWindow(cfg, text, cursor)))
  {
    var span := Span(cursor, WindowEnd(cfg, text, cursor));
    var rest := SpansFrom(cfg, text, AfterWindow(cfg, text, cursor));
    assert SpansFrom(cfg, text, cursor) == [span] + rest;
    FlatMapPrepend(emit, span, rest);
  }

  lemma LoopTurn(cfg: ChunkingConfig, text: string, cursor: nat, emit: Span -> seq<Window>,
                 windows: seq<Window>, emitted: seq<Window>, all: seq<Window>)
    requires cfg.Valid() && cursor < |text| && emit == Emitter(text)
    requires emitted == Emitted(text, Span(cursor, WindowEnd(cfg, text, cursor)))
    requires windows + FlatMap(emit, SpansFrom(cfg, text, cursor)) == all
    ensures windows + emitted + FlatMap(emit, SpansFrom(cfg, text, AfterWindow(cfg, text, cursor))) == all
  {
    assert emitted == emit(Span(cursor, WindowEnd(cfg, text, cursor)));
    LoopStep(cfg, text, cursor, emit);
  }

  method ChooseEnd(cfg: ChunkingConfig, text: string, cursor: nat) returns (end: int)
    requires cfg.Valid() && cursor < |text|
    ensures end == WindowEnd(cfg, text, cursor)
  {
    var proposedEnd := Min(cursor + cfg.maxCharacters, |text|);
    end := PreferredBoundary(cfg, text, cursor, proposedEnd);
    if end <= cursor {
      end := proposedEnd;
    }
  }

  method ComputeWindows(cfg: ChunkingConfig, text: string) returns (windows: seq<Window>)
    requires cfg.Valid()
    ensures windows == WindowsOf(cfg, text)
  {
    windows := [];
    var cursor := 0;
    ghost var emit, all := Emitter(text), WindowsOf(cfg, text);
    while cursor < |text|
      invariant 0 <= cursor <= |text|
      invariant windows + FlatMap(emit, SpansFrom(cfg, text, cursor)) == all
      decreases |text| - cursor
    {
      var end := ChooseEnd(cfg, text, cursor);
      var emitted := WindowAt(text, cursor, end);
      ghost var next := AfterWindow(cfg, text, cursor);
      LoopTurn(cfg, text, cursor, emit, windows, emitted, all);
      windows := windows + emitted;
      if end >= |text| {
        break;
      }
      var nextCursor := Max(0, end - cfg.overlapCharacters);
      cursor := if nextCursor <= cursor then end else nextCursor;
      assert cursor == next;
    }
  }
}
