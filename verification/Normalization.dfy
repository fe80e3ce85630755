/** Text normalisation of the paragraph chunker (chunking.py). */
module Normalization {
  import opened Pieces
  import opened PythonStrings

  /** The class [ \t\f\v]. */
  predicate IsBlank(c: char) { c == ' ' || c == '\t' || c as int == 0xc || c as int == 0xb }

  // ---------------------------------------------------------------- paragraph breaks

  /** text[i..e] matches \n\s*\n+. */
  predicate BreakAt(text: string, i: nat, e: nat) {
    && i + 2 <= e <= |text|
    && text[i] == '\n' && text[e - 1] == '\n'
    && forall p :: i <= p < e ==> IsSpace(text[p])
  }

  /** Where the greedy match that starts at i ends, or none. */
  function BreakEnd(text: string, i: nat): (e: nat)
    requires i < |text|
    ensures e != 0 ==> BreakAt(text, i, e)
    ensures forall x: nat :: BreakAt(text, i, x) ==> x <= e
  {
    if text[i] != '\n' then 0
    else
      FirstVisibleFacts(text, i, |text|);
      var run := FirstVisible(text, i, |text|);
      assert i < run;
      var last := RFind(text, "\n", i + 1, run);
      LastNewline(text, i + 1, run);
      if last == -1 then 0 else last + 1
  }

  /** What rfind("\n") says of single characters. */
  lemma LastNewline(text: string, start: nat, end: nat)
    requires start <= end <= |text|
    ensures var last := RFind(text, "\n", start, end);
            && (last != -1 ==> start <= last < end && text[last] == '\n')
            && (forall p :: start <= p < end && (last == -1 || last < p) ==> text[p] != '\n')
  {
    var last := RFind(text, "\n", start, end);
    if last != -1 {
      assert text[last..last + 1][0] == text[last];
    }
    forall p | start <= p < end && (last == -1 || last < p) ensures text[p] != '\n' {
      if text[p] == '\n' {
        assert text[p..p + 1] == "\n";
        assert OccursAt(text, "\n", p);
      }
    }
  }

  /** The first match at or after i: where it starts, or the length of the text. */
  function NextBreak(text: string, i: nat): (b: nat)
    requires i <= |text|
    ensures i <= b <= |text|
    ensures b < |text| ==> BreakEnd(text, b) != 0
    ensures forall p :: i <= p < b ==> BreakEnd(text, p) == 0
    decreases |text| - i
  {
    if i == |text| || BreakEnd(text, i) != 0 then i else NextBreak(text, i + 1)
  }

  /** _PARAGRAPH_BREAK.split */
  function Split(text: string): (parts: seq<string>)
    ensures parts != []
    decreases |text|
  {
    var b := NextBreak(text, 0);
    if b == |text| then [text] else [text[..b]] + Split(text[BreakEnd(text, b)..])
  }

  // ---------------------------------------------------------------- paragraphs

  function ReplaceNewlines(s: string): string {
    if s == "" then "" else [if s[0] == '\n' then ' ' else s[0]] + ReplaceNewlines(s[1..])
  }

  /** _WHITESPACE.sub(" ", s): each maximal run of blanks becomes one space. */
  function Collapse(s: string): string {
    if s == "" then ""
    else if !IsBlank(s[0]) then [s[0]] + Collapse(s[1..])
    else if |s| > 1 && IsBlank(s[1]) then Collapse(s[1..])
    else [' '] + Collapse(s[1..])
  }

  function Paragraph(raw: string): string {
    Strip(Collapse(ReplaceNewlines(raw)))
  }

  function Kept(raw: string): seq<string> {
    if Paragraph(raw) == "" then [] else [Paragraph(raw)]
  }

  /** "\n\n".join */
  function JoinParagraphs(ps: seq<string>): string {
    if ps == [] then "" else if |ps| == 1 then ps[0] else ps[0] + "\n\n" + JoinParagraphs(ps[1..])
  }

  function Paragraphs(text: string): seq<string> {
    FlatMap(Kept, Split(Strip(text)))
  }

  function Normalized(text: string): string {
    JoinParagraphs(Paragraphs(text))
  }

  method Normalize(value: string) returns (r: string)
    ensures r == Normalized(value)
  {
    var paragraphs: seq<string> := [];
    var raws := Split(Strip(value));
    for i := 0 to |raws|
      invariant paragraphs == FlatMap(Kept, raws[..i])
    {
      var collapsed := Strip(Collapse(ReplaceNewlines(raws[i])));
      FlatMapOneMore(Kept, raws, i);
      if collapsed != "" {
        paragraphs := paragraphs + [collapsed];
      }
    }
    assert raws[..|raws|] == raws;
    r := JoinParagraphs(paragraphs);
  }

  // ---------------------------------------------------------------- nothing visible changes

  lemma {:induction false} VisibleOfReplace(s: string)
    ensures Visible(ReplaceNewlines(s)) == Visible(s)
  {
    if s != "" {
      VisibleOfReplace(s[1..]);
      var head := [if s[0] == '\n' then ' ' else s[0]];
      VisibleOfConcatenation(head, ReplaceNewlines(s[1..]));
      assert head[1..] == "";
    }
  }

  lemma {:induction false} VisibleOfCollapse(s: string)
    ensures Visible(Collapse(s)) == Visible(s)
  {
    if s != "" {
      VisibleOfCollapse(s[1..]);
      assert IsBlank(s[0]) ==> IsSpace(s[0]);
      if !IsBlank(s[0]) {
        assert Collapse(s)[1..] == Collapse(s[1..]);
      } else if !(|s| > 1 && IsBlank(s[1])) {
        assert Collapse(s)[1..] == Collapse(s[1..]);
      }
    }
  }

  lemma VisibleOfParagraph(raw: string)
    ensures Visible(Paragraph(raw)) == Visible(raw)
  {
    VisibleOfStrip(Collapse(ReplaceNewlines(raw)));
    VisibleOfCollapse(ReplaceNewlines(raw));
    VisibleOfReplace(raw);
  }

  /** The visible characters of several texts, one after the other. */
  function AllVisible(parts: seq<string>): string {
    if parts == [] then "" else Visible(parts[0]) + AllVisible(parts[1..])
  }

  lemma {:induction false} VisibleOfSplit(text: string)
    ensures AllVisible(Split(text)) == Visible(text)
    decreases |text|
  {
    var b := NextBreak(text, 0);
    if b == |text| {
      assert Split(text)[1..] == [];
    } else {
      var e := BreakEnd(text, b);
      VisibleOfSplit(text[e..]);
      assert Split(text)[1..] == Split(text[e..]);
      VisibleAroundBreak(text, b, e);
    }
  }

  lemma VisibleAroundBreak(text: string, b: nat, e: nat)
    requires BreakAt(text, b, e)
    ensures Visible(text) == Visible(text[..b]) + Visible(text[e..])
  {
    VisibleOfBlank(text[b..e]);
    VisibleOfConcatenation(text[..b], text[b..e]);
    VisibleOfConcatenation(text[..e], text[e..]);
    assert text == text[..e] + text[e..] && text[..e] == text[..b] + text[b..e];
  }

  lemma {:induction false} VisibleOfKept(raws: seq<string>)
    ensures AllVisible(FlatMap(Kept, raws)) == AllVisible(raws)
  {
    if raws != [] {
      VisibleOfKept(raws[1..]);
      VisibleOfParagraph(raws[0]);
      var rest := FlatMap(Kept, raws[1..]);
      if Paragraph(raws[0]) == "" {
        assert FlatMap(Kept, raws) == rest;
        assert Visible(Paragraph(raws[0])) == "";
      } else {
        assert FlatMap(Kept, raws) == [Paragraph(raws[0])] + rest;
        assert ([Paragraph(raws[0])] + rest)[1..] == rest;
      }
    }
  }

  lemma {:induction false} VisibleOfJoin(ps: seq<string>)
    ensures Visible(JoinParagraphs(ps)) == AllVisible(ps)
  {
    if |ps| == 1 {
      assert AllVisible(ps[1..]) == "";
    } else if |ps| > 1 {
      VisibleOfJoin(ps[1..]);
      VisibleOfConcatenation(ps[0] + "\n\n", JoinParagraphs(ps[1..]));
      VisibleOfConcatenation(ps[0], "\n\n");
      VisibleOfBlank("\n\n");
    }
  }

  /** Normalising keeps the exact sequence of visible characters. */
  lemma NormalizationKeepsVisible(text: string)
    ensures Visible(Normalized(text)) == Visible(text)
  {
    VisibleOfStrip(text);
    VisibleOfSplit(Strip(text));
    VisibleOfKept(Split(Strip(text)));
    VisibleOfJoin(Paragraphs(text));
  }

  // ---------------------------------------------------------------- normal paragraphs

  /** No newline, no blank but single spaces, visible at both ends. */
  ghost predicate Clean(p: string) {
    && p != "" && !IsSpace(p[0]) && !IsSpace(p[|p| - 1])
    && Tight(p)
  }

  predicate TightAt(p: string, i: int) {
    0 <= i < |p| ==>
      && p[i] != '\n'
      && (IsBlank(p[i]) ==> p[i] == ' ' && (i + 1 < |p| ==> !IsBlank(p[i + 1])))
  }

  ghost predicate Tight(p: string) { forall i :: TightAt(p, i) }

  lemma TightPart(s: string, part: string, from: nat)
    requires Tight(s) && from + |part| <= |s| && forall i :: 0 <= i < |part| ==> part[i] == s[from + i]
    ensures Tight(part)
  {
    forall i ensures TightAt(part, i) {
      if 0 <= i < |part| {
        assert TightAt(s, from + i);
        assert i + 1 < |part| ==> part[i + 1] == s[from + (i + 1)];
      }
    }
  }

  lemma TightPrepend(c: char, rest: string)
    requires Tight(rest) && c != '\n' && (IsBlank(c) ==> c == ' ' && (rest == "" || !IsBlank(rest[0])))
    ensures Tight([c] + rest)
  {
    forall i ensures TightAt([c] + rest, i) {
      assert TightAt(rest, i - 1);
    }
  }

  lemma {:induction false} ReplaceRemovesNewlines(s: string)
    ensures '\n' !in ReplaceNewlines(s)
  {
    if s != "" {
      ReplaceRemovesNewlines(s[1..]);
    }
  }

  lemma {:induction false} CollapseTightens(s: string)
    requires '\n' !in s
    ensures Tight(Collapse(s))
    ensures s == "" <==> Collapse(s) == ""
    ensures s != "" ==> Collapse(s)[0] == if IsBlank(s[0]) then ' ' else s[0]
  {
    if s != "" {
      CollapseTightens(s[1..]);
      if !(IsBlank(s[0]) && |s| > 1 && IsBlank(s[1])) {
        TightPrepend(if IsBlank(s[0]) then ' ' else s[0], Collapse(s[1..]));
      }
    }
  }

  lemma ParagraphIsClean(raw: string)
    requires Paragraph(raw) != ""
    ensures Clean(Paragraph(raw))
  {
    var s := Collapse(ReplaceNewlines(raw));
    ReplaceRemovesNewlines(raw);
    CollapseTightens(ReplaceNewlines(raw));
    LeadBeforeEnd(s);
    TightPart(s, Strip(s), Lead(s));
  }

  lemma {:induction false} ReplaceWithoutNewlines(s: string)
    requires '\n' !in s
    ensures ReplaceNewlines(s) == s
  {
    if s != "" {
      assert s[0] in s;
      ReplaceWithoutNewlines(s[1..]);
    }
  }

  lemma {:induction false} CollapseTight(s: string)
    requires Tight(s)
    ensures Collapse(s) == s
  {
    if s != "" {
      TightPart(s, s[1..], 1);
      assert TightAt(s, 0);
      CollapseTight(s[1..]);
    }
  }

  lemma TightHasNoNewline(p: string)
    requires Tight(p)
    ensures '\n' !in p
  {
    forall i | 0 <= i < |p| ensures p[i] != '\n' {
      assert TightAt(p, i);
    }
  }

  lemma CleanIsItsOwnParagraph(p: string)
    requires Clean(p)
    ensures Paragraph(p) == p
  {
    TightHasNoNewline(p);
    ReplaceWithoutNewlines(p);
    CollapseTight(p);
    StripOfStripped(p);
  }

  // ---------------------------------------------------------------- idempotence

  ghost predicate AllClean(ps: seq<string>) { forall k :: 0 <= k < |ps| ==> Clean(ps[k]) }

  lemma {:induction false} KeptAreClean(raws: seq<string>)
    ensures AllClean(FlatMap(Kept, raws))
  {
    if raws != [] {
      KeptAreClean(raws[1..]);
      if Paragraph(raws[0]) != "" {
        ParagraphIsClean(raws[0]);
      }
    }
  }

  lemma {:induction false} KeptOfClean(ps: seq<string>)
    requires AllClean(ps)
    ensures FlatMap(Kept, ps) == ps
  {
    if ps != [] {
      CleanIsItsOwnParagraph(ps[0]);
      KeptOfClean(ps[1..]);
    }
  }

  /** A text of clean paragraphs begins and ends with visible characters. */
  lemma {:induction false} JoinIsStripped(ps: seq<string>)
    requires AllClean(ps) && ps != []
    ensures var t := JoinParagraphs(ps); t != "" && !IsSpace(t[0]) && !IsSpace(t[|t| - 1])
    ensures JoinParagraphs(ps)[0] == ps[0][0]
  {
    if |ps| > 1 {
      JoinIsStripped(ps[1..]);
    }
  }

  lemma NoBreakWithoutNewline(text: string, i: nat)
    requires i < |text| && text[i] != '\n'
    ensures BreakEnd(text, i) == 0
  {
  }

  /** In p + "\n\n" + rest the first break is the one after p, and it is two characters long. */
  lemma FirstBreak(p: string, rest: string)
    requires Clean(p) && rest != "" && !IsSpace(rest[0])
    ensures var t := p + "\n\n" + rest; NextBreak(t, 0) == |p| && BreakEnd(t, |p|) == |p| + 2
  {
    var t := p + "\n\n" + rest;
    assert t[|p|] == '\n' && t[|p| + 1] == '\n' && t[|p| + 2] == rest[0];
    assert BreakAt(t, |p|, |p| + 2);
    var e := BreakEnd(t, |p|);
    assert BreakAt(t, |p|, e);
    assert e == |p| + 2;
    forall q | 0 <= q < |p| ensures BreakEnd(t, q) == 0 {
      assert TightAt(p, q) && t[q] == p[q];
      NoBreakWithoutNewline(t, q);
    }
  }

  lemma {:induction false} SplitOfJoin(ps: seq<string>)
    requires AllClean(ps) && ps != []
    ensures Split(JoinParagraphs(ps)) == ps
  {
    if |ps| == 1 {
      forall q | 0 <= q < |ps[0]| ensures BreakEnd(ps[0], q) == 0 {
        assert TightAt(ps[0], q);
        NoBreakWithoutNewline(ps[0], q);
      }
    } else {
      var p, rest := ps[0], JoinParagraphs(ps[1..]);
      JoinIsStripped(ps[1..]);
      FirstBreak(p, rest);
      SplitOfJoin(ps[1..]);
      var t := p + "\n\n" + rest;
      assert t[..|p|] == p && t[|p| + 2..] == rest;
    }
  }

  lemma NormalTextIsFixed(ps: seq<string>)
    requires AllClean(ps)
    ensures Normalized(JoinParagraphs(ps)) == JoinParagraphs(ps)
  {
    if ps == [] {
      assert Strip("") == "";
      assert NextBreak("", 0) == 0;
      assert Split("") == [""];
      assert Paragraph("") == "";
    } else {
      JoinIsStripped(ps);
      StripOfStripped(JoinParagraphs(ps));
      SplitOfJoin(ps);
      KeptOfClean(ps);
    }
  }

  /** Normalising twice is normalising once. */
  lemma NormalizationIsIdempotent(text: string)
    ensures Normalized(Normalized(text)) == Normalized(text)
  {
    KeptAreClean(Split(Strip(text)));
    NormalTextIsFixed(Paragraphs(text));
  }

  /** The texts that normalising leaves alone are the clean paragraphs joined by one empty line. */
  lemma FixedTextsAreNormal(text: string)
    ensures Normalized(text) == text <==> exists ps :: AllClean(ps) && text == JoinParagraphs(ps)
  {
    if Normalized(text) == text {
      KeptAreClean(Split(Strip(text)));
      assert AllClean(Paragraphs(text)) && text == JoinParagraphs(Paragraphs(text));
    }
    if ps :| AllClean(ps) && text == JoinParagraphs(ps) {
      NormalTextIsFixed(ps);
    }
  }
}
