/** The canonical text of a payload says all that matters of it: two payloads have the same
    text only if they are the same up to the order of dictionary entries and set elements, and
    up to binary data being written like a dictionary with the one key "$binary". */
module CanonicalText {
  import opened Canonical
  import opened TextOrder

  // ---------------------------------------------------------------- strings

  predicate Delimited(r: string) {
    r != "" ==> r[0] == ',' || r[0] == ']' || r[0] == '}'
  }

  lemma EscapesDiffer(c: char, d: char, x: string, y: string)
    requires Escaped(c) + x == Escaped(d) + y
    ensures c == d && x == y
  {
    var s, t := Escaped(c) + x, Escaped(d) + y;
    assert s[0] == Escaped(c)[0] && t[0] == Escaped(d)[0];
    if s[0] == '\\' {
      assert s[1] == Escaped(c)[1] && t[1] == Escaped(d)[1];
      if s[1] == 'u' {
        assert s[4] == HexDigit(c as int / 16) && t[4] == HexDigit(d as int / 16);
        assert s[5] == HexDigit(c as int % 16) && t[5] == HexDigit(d as int % 16);
        HexDigitsDiffer(c as int / 16, d as int / 16);
        HexDigitsDiffer(c as int % 16, d as int % 16);
      }
    }
    assert c == d;
    assert s[|Escaped(c)|..] == x && t[|Escaped(d)|..] == y;
  }

  lemma HexDigitsDiffer(m: nat, n: nat)
    requires m < 16 && n < 16 && HexDigit(m) == HexDigit(n)
    ensures m == n
  {
  }

  lemma NoEscapeIsAQuote(c: char)
    ensures Escaped(c) != "" && Escaped(c)[0] != '\"'
  {
  }

  lemma Associative(a: string, b: string, c: string)
    ensures (a + b) + c == a + (b + c)
  {
  }

  lemma SameStart(a: string, x: string, b: string, y: string)
    requires a + x == b + y && a == b
    ensures x == y
  {
    assert (a + x)[|a|..] == x && (b + y)[|b|..] == y;
  }

  lemma EscapedSteps(s: string, x: string)
    requires s != ""
    ensures EscapedAll(s) + x == Escaped(s[0]) + (EscapedAll(s[1..]) + x)
    ensures (EscapedAll(s) + x)[0] != '\"'
  {
    NoEscapeIsAQuote(s[0]);
    Associative(Escaped(s[0]), EscapedAll(s[1..]), x);
  }

  /** The closing quote can be told from what is quoted. */
  lemma {:induction false} EscapedTextEnds(s: string, t: string, x: string, y: string)
    requires EscapedAll(s) + ("\"" + x) == EscapedAll(t) + ("\"" + y)
    ensures s == t && x == y
  {
    if s != "" { EscapedSteps(s, "\"" + x); }
    if t != "" { EscapedSteps(t, "\"" + y); }
    if s == "" || t == "" {
      NothingEscaped(s, t, x, y);
    } else {
      EscapesDiffer(s[0], t[0], EscapedAll(s[1..]) + ("\"" + x), EscapedAll(t[1..]) + ("\"" + y));
      EscapedTextEnds(s[1..], t[1..], x, y);
      assert s == [s[0]] + s[1..] && t == [t[0]] + t[1..];
    }
  }

  lemma NothingEscaped(s: string, t: string, x: string, y: string)
    requires EscapedAll(s) + ("\"" + x) == EscapedAll(t) + ("\"" + y) && (s == "" || t == "")
    requires s != "" ==> (EscapedAll(s) + ("\"" + x))[0] != '\"'
    requires t != "" ==> (EscapedAll(t) + ("\"" + y))[0] != '\"'
    ensures s == t && x == y
  {
    assert EscapedAll("") + ("\"" + x) == "\"" + x && EscapedAll("") + ("\"" + y) == "\"" + y;
    assert s == "" ==> (EscapedAll(s) + ("\"" + x))[0] == '\"';
    assert t == "" ==> (EscapedAll(t) + ("\"" + y))[0] == '\"';
    SameStart("\"", x, "\"", y);
  }

  lemma QuotedSplits(s: string, x: string)
    ensures Quoted(s) + x == "\"" + (EscapedAll(s) + ("\"" + x))
  {
    Associative("\"" + EscapedAll(s), "\"", x);
    Associative("\"", EscapedAll(s), "\"" + x);
  }

  lemma QuotedTextEnds(s: string, t: string, x: string, y: string)
    requires Quoted(s) + x == Quoted(t) + y
    ensures s == t && x == y
  {
    QuotedSplits(s, x);
    QuotedSplits(t, y);
    SameStart("\"", EscapedAll(s) + ("\"" + x), "\"", EscapedAll(t) + ("\"" + y));
    EscapedTextEnds(s, t, x, y);
  }

  // ---------------------------------------------------------------- plain values

  /** The text of a number begins like no other value and holds no delimiter. */
  predicate NumberText(text: string) {
    && text != ""
    && text[0] !in ['n', 't', 'f', '\"', '[', '{']
    && (forall i :: 0 <= i < |text| ==> text[i] !in [',', ']', '}'])
  }

  /** No binary data, numbers as numbers, and dictionaries sorted by their keys: what a
      canonical form is. */
  ghost predicate Plain(v: Value) {
    match v
    case Number(text) => NumberText(text)
    case Binary(_) => false
    case List(items) => forall i :: 0 <= i < |items| ==> Plain(items[i])
    case Mapping(entries) =>
      && (forall i :: 0 <= i < |entries| ==> Plain(entries[i].value))
      && SortedBy(EntryKey(), entries)
    case _ => true
  }

  /** The texts from the i-th on, with what stands between them and after them. */
  function Joined(texts: seq<string>, i: nat, close: string): string
    requires i < |texts|
    decreases |texts| - i
  {
    texts[i] + AfterText(texts, i, close)
  }

  function AfterText(texts: seq<string>, i: nat, close: string): string
    requires i < |texts|
    decreases |texts| - i, 0
  {
    if i + 1 == |texts| then close else "," + Joined(texts, i + 1, close)
  }

  lemma {:induction false} CommasAreJoined(texts: seq<string>, i: nat, close: string)
    requires i < |texts|
    ensures Commas(texts[i..]) + close == Joined(texts, i, close)
    decreases |texts| - i
  {
    var rest := texts[i..];
    assert rest[0] == texts[i];
    if i + 1 < |texts| {
      CommasAreJoined(texts, i + 1, close);
      assert rest[1..] == texts[i + 1..];
      Associative(rest[0] + ",", Commas(rest[1..]), close);
      Associative(rest[0], ",", Commas(rest[1..]) + close);
    }
  }

  /** What stands between the brackets, the closing one included, and after them. */
  function Inside(texts: seq<string>, close: string): string {
    if texts == [] then close else Joined(texts, 0, close)
  }

  lemma CommasAreInside(texts: seq<string>, close: string)
    ensures Commas(texts) + close == Inside(texts, close)
  {
    if texts != [] {
      CommasAreJoined(texts, 0, close);
      assert texts[0..] == texts;
    }
  }

  function ItemTexts(items: seq<Value>): seq<string> { Map(Texter(), items) }

  function EntryTexts(entries: seq<Entry>): seq<string> { Map(FieldText(), Map(ToField(), entries)) }

  lemma ListText(items: seq<Value>, x: string)
    ensures JsonText(List(items)) + x == "[" + Inside(ItemTexts(items), "]" + x)
  {
    TextOfList(items);
    CommasAreInside(ItemTexts(items), "]" + x);
    Associative("[" + Commas(ItemTexts(items)), "]", x);
    Associative("[", Commas(ItemTexts(items)), "]" + x);
  }

  lemma MappingText(entries: seq<Entry>, x: string)
    requires SortedBy(EntryKey(), entries)
    ensures JsonText(Mapping(entries)) + x == "{" + Inside(EntryTexts(entries), "}" + x)
  {
    TextOfMapping(entries);
    MapSort(ToField(), EntryKey(), KeyOf(), entries);
    SortOfSorted(EntryKey(), entries);
    CommasAreInside(EntryTexts(entries), "}" + x);
    Associative("{" + Commas(EntryTexts(entries)), "}", x);
    Associative("{", Commas(EntryTexts(entries)), "}" + x);
  }

  // ---------------------------------------------------------------- texts determine values

  /** The first character tells what kind of value follows. */
  function FirstOf(v: Value): char
    requires Plain(v)
  {
    match v
    case Null => 'n'
    case Bool(bit) => if bit then 't' else 'f'
    case Number(text) => text[0]
    case Str(_) => '\"'
    case Binary(_) => '{'
    case List(_) => '['
    case Mapping(_) => '{'
  }

  lemma TextBegins(v: Value)
    requires Plain(v)
    ensures JsonText(v) != "" && JsonText(v)[0] == FirstOf(v)
    ensures FirstOf(v) != ']' && FirstOf(v) != '}'
  {
    match v
    case List(items) =>
      ListText(items, "");
      assert JsonText(v) + "" == JsonText(v);
    case Mapping(entries) =>
      MappingText(entries, "");
      assert JsonText(v) + "" == JsonText(v);
    case _ =>
  }

  /** A number ends where the delimiter begins. */
  lemma NumbersEnd(s: string, t: string, x: string, y: string)
    requires NumberText(s) && NumberText(t) && Delimited(x) && Delimited(y) && s + x == t + y
    ensures s == t && x == y
  {
    assert x != "" ==> (s + x)[|s|] == x[0];
    assert y != "" ==> (t + y)[|t|] == y[0];
    assert forall i :: 0 <= i < |s| ==> (s + x)[i] == s[i];
    assert forall i :: 0 <= i < |t| ==> (t + y)[i] == t[i];
    assert (s + x)[..|s|] == s && (t + y)[..|t|] == t;
    assert (s + x)[|s|..] == x && (t + y)[|t|..] == y;
  }

  lemma SameKind(v: Value, w: Value, x: string, y: string)
    requires Plain(v) && Plain(w) && JsonText(v) + x == JsonText(w) + y
    ensures FirstOf(v) == FirstOf(w)
    ensures v.Null? == w.Null? && v.Bool? == w.Bool? && v.Number? == w.Number?
    ensures v.Str? == w.Str? && v.List? == w.List? && v.Mapping? == w.Mapping?
  {
    TextBegins(v);
    TextBegins(w);
    assert (JsonText(v) + x)[0] == FirstOf(v) && (JsonText(w) + y)[0] == FirstOf(w);
  }

  /** The text of a plain value, followed by a delimiter or by nothing, determines it. */
  lemma {:induction false} TextDetermines(v: Value, w: Value, x: string, y: string)
    requires Plain(v) && Plain(w) && Delimited(x) && Delimited(y) && JsonText(v) + x == JsonText(w) + y
    ensures v == w && x == y
    decreases v, 1, 0
  {
    SameKind(v, w, x, y);
    match v
    case Number(text) => NumbersEnd(text, w.text, x, y);
    case Str(str) => QuotedTextEnds(str, w.str, x, y);
    case List(items) => ListDetermines(v, w, x, y);
    case Mapping(entries) => MappingDetermines(v, w, x, y);
    case _ => SameStart(JsonText(v), x, JsonText(w), y);
  }

  lemma {:induction false} ListDetermines(v: Value, w: Value, x: string, y: string)
    requires Plain(v) && Plain(w) && v.List? && w.List? && JsonText(v) + x == JsonText(w) + y
    ensures v == w && x == y
    decreases v, 0, |v.items| + 1
  {
    var a, b := v.items, w.items;
    ListText(a, x);
    ListText(b, y);
    SameStart("[", Inside(ItemTexts(a), "]" + x), "[", Inside(ItemTexts(b), "]" + y));
    if a == [] || b == [] {
      if a != [] { ItemBegins(a, x); }
      if b != [] { ItemBegins(b, y); }
      assert a == [] ==> Inside(ItemTexts(a), "]" + x)[0] == ']';
      assert b == [] ==> Inside(ItemTexts(b), "]" + y)[0] == ']';
      SameStart("]", x, "]", y);
    } else {
      ItemsDetermine(v, w, 0, x, y);
      assert a == a[0..] && b == b[0..];
    }
  }

  lemma ItemBegins(items: seq<Value>, x: string)
    requires items != [] && Plain(items[0])
    ensures Inside(ItemTexts(items), "]" + x) != "" && Inside(ItemTexts(items), "]" + x)[0] != ']'
  {
    TextBegins(items[0]);
    assert ItemTexts(items)[0] == JsonText(items[0]);
  }

  lemma AfterIsDelimited(texts: seq<string>, i: nat, close: string)
    requires i < |texts| && close != "" && (close[0] == ']' || close[0] == '}')
    ensures Delimited(AfterText(texts, i, close))
    ensures AfterText(texts, i, close) != ""
    ensures AfterText(texts, i, close)[0] == if i + 1 == |texts| then close[0] else ','
  {
  }

  lemma {:induction false} ItemsDetermine(v: Value, w: Value, i: nat, x: string, y: string)
    requires v.List? && w.List? && i < |v.items| && i < |w.items| && Plain(v) && Plain(w)
    requires Joined(ItemTexts(v.items), i, "]" + x) == Joined(ItemTexts(w.items), i, "]" + y)
    ensures v.items[i..] == w.items[i..] && x == y
    decreases v, 0, |v.items| - i
  {
    var a, b := v.items, w.items;
    var s, t := AfterText(ItemTexts(a), i, "]" + x), AfterText(ItemTexts(b), i, "]" + y);
    AfterIsDelimited(ItemTexts(a), i, "]" + x);
    AfterIsDelimited(ItemTexts(b), i, "]" + y);
    assert ItemTexts(a)[i] == JsonText(a[i]) && ItemTexts(b)[i] == JsonText(b[i]);
    TextDetermines(a[i], b[i], s, t);
    if i + 1 == |a| {
      SameStart("]", x, "]", y);
    } else {
      SameStart(",", Joined(ItemTexts(a), i + 1, "]" + x), ",", Joined(ItemTexts(b), i + 1, "]" + y));
      ItemsDetermine(v, w, i + 1, x, y);
    }
    OneMore(a, b, i);
  }

  lemma OneMore<T>(a: seq<T>, b: seq<T>, i: nat)
    requires i < |a| && i < |b| && a[i] == b[i] && a[i + 1..] == b[i + 1..]
    ensures a[i..] == b[i..]
  {
    assert a[i..] == [a[i]] + a[i + 1..] && b[i..] == [b[i]] + b[i + 1..];
  }

  lemma {:induction false} MappingDetermines(v: Value, w: Value, x: string, y: string)
    requires Plain(v) && Plain(w) && v.Mapping? && w.Mapping? && JsonText(v) + x == JsonText(w) + y
    ensures v == w && x == y
    decreases v, 0, |v.entries| + 1
  {
    var a, b := v.entries, w.entries;
    MappingText(a, x);
    MappingText(b, y);
    SameStart("{", Inside(EntryTexts(a), "}" + x), "{", Inside(EntryTexts(b), "}" + y));
    if a == [] || b == [] {
      if a != [] { EntryBegins(a, x); }
      if b != [] { EntryBegins(b, y); }
      assert a == [] ==> Inside(EntryTexts(a), "}" + x)[0] == '}';
      assert b == [] ==> Inside(EntryTexts(b), "}" + y)[0] == '}';
      SameStart("}", x, "}", y);
    } else {
      EntriesDetermine(v, w, 0, x, y);
      assert a == a[0..] && b == b[0..];
    }
  }

  lemma EntryTextAt(entries: seq<Entry>, i: nat)
    requires i < |entries|
    ensures EntryTexts(entries)[i] == Quoted(entries[i].key) + ":" + JsonText(entries[i].value)
  {
    assert Map(ToField(), entries)[i] == Field(entries[i].key, JsonText(entries[i].value));
  }

  lemma EntryBegins(entries: seq<Entry>, x: string)
    requires entries != []
    ensures Inside(EntryTexts(entries), "}" + x) != "" && Inside(EntryTexts(entries), "}" + x)[0] == '\"'
  {
    EntryTextAt(entries, 0);
  }

  lemma {:induction false} EntriesDetermine(v: Value, w: Value, i: nat, x: string, y: string)
    requires v.Mapping? && w.Mapping? && i < |v.entries| && i < |w.entries| && Plain(v) && Plain(w)
    requires Joined(EntryTexts(v.entries), i, "}" + x) == Joined(EntryTexts(w.entries), i, "}" + y)
    ensures v.entries[i..] == w.entries[i..] && x == y
    decreases v, 0, |v.entries| - i
  {
    var a, b := v.entries, w.entries;
    var s, t := AfterText(EntryTexts(a), i, "}" + x), AfterText(EntryTexts(b), i, "}" + y);
    AfterIsDelimited(EntryTexts(a), i, "}" + x);
    AfterIsDelimited(EntryTexts(b), i, "}" + y);
    KeysDetermine(a, b, i, s, t);
    TextDetermines(a[i].value, b[i].value, s, t);
    if i + 1 == |a| {
      SameStart("}", x, "}", y);
    } else {
      SameStart(",", Joined(EntryTexts(a), i + 1, "}" + x), ",", Joined(EntryTexts(b), i + 1, "}" + y));
      EntriesDetermine(v, w, i + 1, x, y);
    }
    OneMore(a, b, i);
  }

  lemma KeysDetermine(a: seq<Entry>, b: seq<Entry>, i: nat, s: string, t: string)
    requires i < |a| && i < |b| && EntryTexts(a)[i] + s == EntryTexts(b)[i] + t
    ensures a[i].key == b[i].key && JsonText(a[i].value) + s == JsonText(b[i].value) + t
  {
    EntryTextAt(a, i);
    EntryTextAt(b, i);
    var p, q := JsonText(a[i].value), JsonText(b[i].value);
    Associative(Quoted(a[i].key) + ":", p, s);
    Associative(Quoted(a[i].key), ":", p + s);
    Associative(Quoted(b[i].key) + ":", q, t);
    Associative(Quoted(b[i].key), ":", q + t);
    QuotedTextEnds(a[i].key, b[i].key, ":" + (p + s), ":" + (q + t));
    SameStart(":", p + s, ":", q + t);
  }

  // ---------------------------------------------------------------- canonical forms are plain

  /** What JSON can say of a value: numbers are written as numbers. */
  ghost predicate Printable(v: Value) {
    match v
    case Number(text) => NumberText(text)
    case List(items) => forall i :: 0 <= i < |items| ==> Printable(items[i])
    case Mapping(entries) => forall i :: 0 <= i < |entries| ==> Printable(entries[i].value)
    case _ => true
  }

  lemma {:induction false} CanonicalIsPlain(v: Value)
    requires Printable(v)
    ensures Plain(CanonicalForm(v))
  {
    match v
    case List(items) =>
      forall i | 0 <= i < |items| ensures Plain(CanonicalForm(items[i])) {
        CanonicalIsPlain(items[i]);
      }
    case Mapping(entries) =>
      var es := Unsorted(v);
      forall i | 0 <= i < |es| ensures Plain(es[i].value) {
        CanonicalIsPlain(entries[i].value);
        EntryIsPlain(entries[i].key, CanonicalForm(entries[i].value));
      }
      SortSorts(EntryKey(), es);
      var sorted := SortBy(EntryKey(), es);
      forall k | 0 <= k < |sorted| ensures Plain(sorted[k].value) {
        assert sorted[k] in multiset(sorted);
        assert sorted[k] in es;
      }
    case Binary(base64) =>
      assert SortedBy(EntryKey(), [Entry("$binary", Str(base64))]);
    case _ =>
  }

  lemma EntryIsPlain(key: string, c: Value)
    requires Plain(c)
    ensures Plain(CanonicalEntry(key, c).value)
  {
    if SetKey(key) && c.List? {
      SortSorts(Texter(), c.items);
      var sorted := SortBy(Texter(), c.items);
      forall k | 0 <= k < |sorted| ensures Plain(sorted[k]) {
        assert sorted[k] in multiset(sorted);
        assert sorted[k] in c.items;
      }
    }
  }

  lemma CanonicalTextDetermines(v: Value, w: Value)
    requires Printable(v) && Printable(w) && JsonText(CanonicalForm(v)) == JsonText(CanonicalForm(w))
    ensures CanonicalForm(v) == CanonicalForm(w)
  {
    CanonicalIsPlain(v);
    CanonicalIsPlain(w);
    assert JsonText(CanonicalForm(v)) + "" == JsonText(CanonicalForm(w)) + "";
    TextDetermines(CanonicalForm(v), CanonicalForm(w), "", "");
  }
}
