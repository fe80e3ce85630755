/** The string operations of Python that the chunker calls. */
module PythonStrings {

  /** str.isspace, which is also the class \s of a text pattern. */
  predicate IsSpace(c: char) {
    var n := c as int;
    || 0x9 <= n <= 0xd || 0x1c <= n <= 0x20 || n == 0x85 || n == 0xa0 || n == 0x1680
    || 0x2000 <= n <= 0x200a || n == 0x2028 || n == 0x2029 || n == 0x202f || n == 0x205f || n == 0x3000
  }

  predicate Blank(s: string) { forall i :: 0 <= i < |s| ==> IsSpace(s[i]) }

  /** The first visible position from start on, or the end. */
  function FirstVisible(text: string, start: nat, end: nat): (i: nat)
    requires start <= end <= |text|
    ensures start <= i <= end
    decreases end - start
  {
    if start == end || !IsSpace(text[start]) then start else FirstVisible(text, start + 1, end)
  }

  /** One past the last visible position before end, or the start. */
  function LastVisible(text: string, start: nat, end: nat): (e: nat)
    requires start <= end <= |text|
    ensures start <= e <= end
    decreases end - start
  {
    if start == end || !IsSpace(text[end - 1]) then end else LastVisible(text, start, end - 1)
  }

  lemma {:induction false} FirstVisibleFacts(text: string, start: nat, end: nat)
    requires start <= end <= |text|
    ensures var i := FirstVisible(text, start, end);
            (forall p :: start <= p < i ==> IsSpace(text[p])) && (i < end ==> !IsSpace(text[i]))
    decreases end - start
  {
    if start < end && IsSpace(text[start]) {
      FirstVisibleFacts(text, start + 1, end);
    }
  }

  lemma {:induction false} LastVisibleFacts(text: string, start: nat, end: nat)
    requires start <= end <= |text|
    ensures var e := LastVisible(text, start, end);
            (forall p :: e <= p < end ==> IsSpace(text[p])) && (e > start ==> !IsSpace(text[e - 1]))
    decreases end - start
  {
    if start < end && IsSpace(text[end - 1]) {
      LastVisibleFacts(text, start, end - 1);
    }
  }

  /** How many whitespace characters lead. */
  function Lead(s: string): nat { FirstVisible(s, 0, |s|) }

  /** Where the trailing whitespace begins. */
  function End(s: string): nat { LastVisible(s, 0, |s|) }

  lemma LeadBeforeEnd(s: string)
    requires Lead(s) < |s|
    ensures Lead(s) < End(s) && !IsSpace(s[Lead(s)]) && !IsSpace(s[End(s) - 1])
    ensures forall i :: 0 <= i < Lead(s) || End(s) <= i < |s| ==> IsSpace(s[i])
  {
    FirstVisibleFacts(s, 0, |s|);
    LastVisibleFacts(s, 0, |s|);
  }

  /** str.strip */
  function Strip(s: string): string
  {
    if Lead(s) == |s| then ""
    else
      LeadBeforeEnd(s);
      seq(End(s) - Lead(s), i requires 0 <= i < End(s) - Lead(s) => s[Lead(s) + i])
  }

  lemma StripIsSlice(s: string)
    requires Lead(s) < |s|
    ensures Lead(s) < End(s) && Strip(s) == s[Lead(s)..End(s)]
  {
    LeadBeforeEnd(s);
  }

  predicate OccursAt(text: string, needle: string, i: int) {
    0 <= i && i + |needle| <= |text| && text[i..i + |needle|] == needle
  }

  /** text.find(needle, start, end) */
  function Find(text: string, needle: string, start: nat, end: nat): (r: int)
    requires start <= end <= |text|
    ensures r == -1 || (start <= r <= end - |needle| && OccursAt(text, needle, r))
    ensures forall i :: start <= i <= end - |needle| && (r == -1 || i < r) ==> !OccursAt(text, needle, i)
    decreases end - start
  {
    if start + |needle| > end then -1
    else if OccursAt(text, needle, start) then start
    else if start == end then -1
    else Find(text, needle, start + 1, end)
  }

  /** text.rfind(needle, start, end) */
  function RFind(text: string, needle: string, start: nat, end: nat): (r: int)
    requires start <= end <= |text|
    ensures r == -1 || (start <= r <= end - |needle| && OccursAt(text, needle, r))
    ensures forall i :: start <= i <= end - |needle| && (r == -1 || i > r) ==> !OccursAt(text, needle, i)
    decreases end - start
  {
    if start + |needle| > end then -1
    else if OccursAt(text, needle, end - |needle|) then end - |needle|
    else if start == end then -1
    else RFind(text, needle, start, end - 1)
  }

  /** The characters that are not whitespace, in order. */
  function Visible(s: string): (v: string) {
    if s == "" then "" else (if IsSpace(s[0]) then "" else [s[0]]) + Visible(s[1..])
  }

  lemma {:induction false} VisibleOfConcatenation(a: string, b: string)
    ensures Visible(a + b) == Visible(a) + Visible(b)
  {
    if a == "" {
      assert a + b == b;
    } else {
      var head := if IsSpace(a[0]) then "" else [a[0]];
      calc {
        Visible(a + b);
        { assert (a + b)[0] == a[0] && (a + b)[1..] == a[1..] + b; }
        head + Visible(a[1..] + b);
        { VisibleOfConcatenation(a[1..], b); }
        head + (Visible(a[1..]) + Visible(b));
        { SeqAssociative(head, Visible(a[1..]), Visible(b)); }
        (head + Visible(a[1..])) + Visible(b);
        Visible(a) + Visible(b);
      }
    }
  }

  lemma SeqAssociative(a: string, b: string, c: string)
    ensures a + (b + c) == (a + b) + c
  {
  }

  lemma {:induction false} VisibleOfBlank(s: string)
    requires Blank(s)
    ensures Visible(s) == ""
  {
    if s != "" {
      assert forall i :: 0 <= i < |s[1..]| ==> s[1..][i] == s[i + 1];
      VisibleOfBlank(s[1..]);
    }
  }

  lemma VisibleOfMiddle(s: string, l: nat, e: nat)
    requires l <= e <= |s| && Blank(s[..l]) && Blank(s[e..])
    ensures Visible(s[l..e]) == Visible(s)
  {
    VisibleAfterBlank(s[..l], s[l..]);
    VisibleBeforeBlank(s[l..e], s[e..]);
    assert s[..l] + s[l..] == s;
    assert s[l..e] + s[e..] == s[l..];
  }

  lemma VisibleAfterBlank(a: string, b: string)
    requires Blank(a)
    ensures Visible(a + b) == Visible(b)
  {
    VisibleOfBlank(a);
    VisibleOfConcatenation(a, b);
    assert "" + Visible(b) == Visible(b);
  }

  lemma VisibleBeforeBlank(a: string, b: string)
    requires Blank(b)
    ensures Visible(a + b) == Visible(a)
  {
    VisibleOfBlank(b);
    VisibleOfConcatenation(a, b);
    assert Visible(a) + "" == Visible(a);
  }

  lemma VisibleOfStrip(s: string)
    ensures Visible(Strip(s)) == Visible(s)
  {
    if Lead(s) == |s| {
      FirstVisibleFacts(s, 0, |s|);
      VisibleOfBlank(s);
    } else {
      StripIsSlice(s);
      LeadBeforeEnd(s);
      VisibleOfMiddle(s, Lead(s), End(s));
    }
  }

  /** A text that neither begins nor ends with whitespace is its own strip. */
  lemma StripOfStripped(s: string)
    requires s == "" || (!IsSpace(s[0]) && !IsSpace(s[|s| - 1]))
    ensures Strip(s) == s
  {
    if s != "" {
      assert Lead(s) == 0 && End(s) == |s|;
      assert Strip(s) == s;
    }
  }
}
