/** The canonical form of transaction payloads (dynamodb_control.py). */
module Canonical {
  import opened TextOrder

  /** What a payload is made of after serialisation.  A number is kept as its JSON text and
      binary data as its base64 text. */
  datatype Value =
    | Null
    | Bool(bit: bool)
    | Number(text: string)
    | Str(str: string)
    | Binary(base64: string)
    | List(items: seq<Value>)
    | Mapping(entries: seq<Entry>)

  datatype Entry = Entry(key: string, value: Value)

  /** A dictionary has each key once, at every depth. */
  ghost predicate WellFormed(v: Value) {
    match v
    case List(items) => forall i :: 0 <= i < |items| ==> WellFormed(items[i])
    case Mapping(entries) =>
      && (forall i :: 0 <= i < |entries| ==> WellFormed(entries[i].value))
      && (forall i, j :: 0 <= i < j < |entries| ==> entries[i].key != entries[j].key)
    case _ => true
  }

  predicate SetKey(key: string) { key == "SS" || key == "NS" || key == "BS" }

  // ---------------------------------------------------------------- JSON text

  function HexDigit(n: nat): char
    requires n < 16
  {
    if n < 10 then (48 + n) as char else (87 + n) as char
  }

  /** ensure_ascii=False: quotes, backslashes and control characters are escaped. */
  function Escaped(c: char): string {
    if c == '\"' then "\\\""
    else if c == '\\' then "\\\\"
    else if c == '\n' then "\\n"
    else if c == '\r' then "\\r"
    else if c == '\t' then "\\t"
    else if c as int == 8 then "\\b"
    else if c as int == 12 then "\\f"
    else if c as int < 32 then "\\u00" + [HexDigit(c as int / 16), HexDigit(c as int % 16)]
    else [c]
  }

  function EscapedAll(s: string): string {
    if s == "" then "" else Escaped(s[0]) + EscapedAll(s[1..])
  }

  function Quoted(s: string): string { "\"" + EscapedAll(s) + "\"" }

  function Commas(texts: seq<string>): string {
    if texts == [] then "" else if |texts| == 1 then texts[0] else texts[0] + "," + Commas(texts[1..])
  }

  /** A key and the text of its value. */
  datatype Field = Field(key: string, text: string)

  function KeyOf(): Field -> string { (f: Field) => f.key }

  function FieldText(): Field -> string { (f: Field) => Quoted(f.key) + ":" + f.text }

  /** json.dumps(separators=(",", ":"), sort_keys=True) */
  function JsonText(v: Value): string {
    match v
    case Null => "null"
    case Bool(bit) => if bit then "true" else "false"
    case Number(text) => text
    case Str(str) => Quoted(str)
    case Binary(base64) => "{" + Quoted("$binary") + ":" + Quoted(base64) + "}"
    case List(items) => "[" + Commas(seq(|items|, i requires 0 <= i < |items| => JsonText(items[i]))) + "]"
    case Mapping(entries) =>
      var fields := seq(|entries|, i requires 0 <= i < |entries| => Field(entries[i].key, JsonText(entries[i].value)));
      "{" + Commas(Map(FieldText(), SortBy(KeyOf(), fields))) + "}"
  }

  // ---------------------------------------------------------------- canonical form

  function Texter(): Value -> string { (v: Value) => JsonText(v) }

  function EntryKey(): Entry -> string { (e: Entry) => e.key }

  /** An entry with its value already in canonical form: the elements of a set are sorted. */
  function CanonicalEntry(key: string, canonical: Value): Entry {
    Entry(key, if SetKey(key) && canonical.List? then List(SortBy(Texter(), canonical.items)) else canonical)
  }

  /** _canonical_json_value */
  function CanonicalForm(v: Value): Value {
    match v
    case List(items) => List(seq(|items|, i requires 0 <= i < |items| => CanonicalForm(items[i])))
    case Mapping(entries) =>
      Mapping(SortBy(EntryKey(), seq(|entries|, i requires 0 <= i < |entries| =>
        CanonicalEntry(entries[i].key, CanonicalForm(entries[i].value)))))
    case Binary(base64) => Mapping([Entry("$binary", Str(base64))])
    case _ => v
  }

  // ---------------------------------------------------------------- reordering

  /** The same payload, up to the order of dictionary entries and of set elements, at every
      depth; other lists keep their order. */
  ghost predicate Same(v: Value, w: Value)
    decreases v, 1
  {
    match v
    case List(items) =>
      && w.List? && |w.items| == |items|
      && forall i :: 0 <= i < |items| ==> Same(items[i], w.items[i])
    case Mapping(entries) =>
      && w.Mapping? && |w.entries| == |entries|
      && exists p :: IsPermutation(p, |entries|) && SameEntries(v, w, p)
    case _ => w == v
  }

  ghost predicate SameEntries(v: Value, w: Value, p: seq<nat>)
    requires v.Mapping? && w.Mapping? && |v.entries| == |w.entries| && IsPermutation(p, |v.entries|)
    decreases v, 0
  {
    forall i :: 0 <= i < |v.entries| ==>
      && v.entries[i].key == w.entries[p[i]].key
      && (if SetKey(v.entries[i].key) then SameSet(v.entries[i].value, w.entries[p[i]].value)
          else Same(v.entries[i].value, w.entries[p[i]].value))
  }

  ghost predicate SameSet(v: Value, w: Value)
    decreases v, 2
  {
    if v.List? then
      && w.List? && |w.items| == |v.items|
      && exists p :: IsPermutation(p, |v.items|) && SameItems(v, w, p)
    else Same(v, w)
  }

  ghost predicate SameItems(v: Value, w: Value, p: seq<nat>)
    requires v.List? && w.List? && |v.items| == |w.items| && IsPermutation(p, |v.items|)
    decreases v, 1
  {
    forall i :: 0 <= i < |v.items| ==> Same(v.items[i], w.items[p[i]])
  }

  // ---------------------------------------------------------------- the order does not matter

  function Identity(): string -> string { (s: string) => s }

  function ToField(): Entry -> Field { (e: Entry) => Field(e.key, JsonText(e.value)) }

  /** The entries of a canonical mapping before they are sorted. */
  function Unsorted(v: Value): (es: seq<Entry>)
    requires v.Mapping?
    ensures |es| == |v.entries|
    ensures forall i :: 0 <= i < |es| ==> es[i] == CanonicalEntry(v.entries[i].key, CanonicalForm(v.entries[i].value))
    ensures CanonicalForm(v) == Mapping(SortBy(EntryKey(), es))
  {
    seq(|v.entries|, i requires 0 <= i < |v.entries|
        => CanonicalEntry(v.entries[i].key, CanonicalForm(v.entries[i].value)))
  }

  lemma SameElements<T>(a: seq<T>, b: seq<T>)
    requires |a| == |b| && forall i :: 0 <= i < |a| ==> a[i] == b[i]
    ensures a == b
  {
  }

  lemma TextOfList(items: seq<Value>)
    ensures JsonText(List(items)) == "[" + Commas(Map(Texter(), items)) + "]"
  {
    SameElements(seq(|items|, i requires 0 <= i < |items| => JsonText(items[i])), Map(Texter(), items));
  }

  lemma TextOfMapping(es: seq<Entry>)
    ensures JsonText(Mapping(es)) == "{" + Commas(Map(FieldText(), SortBy(KeyOf(), Map(ToField(), es)))) + "}"
  {
    SameElements(seq(|es|, i requires 0 <= i < |es| => Field(es[i].key, JsonText(es[i].value))), Map(ToField(), es));
  }

  /** The text of a canonical mapping, from its entries in any order. */
  lemma TextOfCanonicalMapping(v: Value)
    requires v.Mapping?
    ensures JsonText(CanonicalForm(v))
            == "{" + Commas(Map(FieldText(), SortBy(KeyOf(), Map(ToField(), Unsorted(v))))) + "}"
  {
    var es := Unsorted(v);
    TextOfMapping(SortBy(EntryKey(), es));
    MapSort(ToField(), EntryKey(), KeyOf(), es);
    SortSorts(KeyOf(), Map(ToField(), es));
    SortOfSorted(KeyOf(), SortBy(KeyOf(), Map(ToField(), es)));
  }

  lemma KeysTellFieldsApart(v: Value)
    requires v.Mapping? && WellFormed(v)
    ensures var fields := Map(ToField(), Unsorted(v));
            forall x, y :: x in fields && y in fields && KeyOf()(x) == KeyOf()(y) ==> x == y
  {
    var fields := Map(ToField(), Unsorted(v));
    forall x, y | x in fields && y in fields && KeyOf()(x) == KeyOf()(y) ensures x == y {
      var i :| 0 <= i < |fields| && fields[i] == x;
      var j :| 0 <= j < |fields| && fields[j] == y;
      assert v.entries[i].key == x.key && v.entries[j].key == y.key;
      assert i == j;
    }
  }

  lemma SameItemsSameText(a: seq<Value>, b: seq<Value>)
    requires |a| == |b| && forall i :: 0 <= i < |a| ==> JsonText(a[i]) == JsonText(b[i])
    ensures JsonText(List(a)) == JsonText(List(b))
  {
    TextOfList(a);
    TextOfList(b);
    assert Map(Texter(), a) == Map(Texter(), b);
  }

  lemma SameFieldsSameText(v: Value, w: Value, p: seq<nat>)
    requires v.Mapping? && w.Mapping? && WellFormed(v)
    requires PermutedBy(Map(ToField(), Unsorted(v)), Map(ToField(), Unsorted(w)), p)
    ensures JsonText(CanonicalForm(v)) == JsonText(CanonicalForm(w))
  {
    KeysTellFieldsApart(v);
    SortForgetsOrder(KeyOf(), Map(ToField(), Unsorted(v)), Map(ToField(), Unsorted(w)), p);
    TextOfCanonicalMapping(v);
    TextOfCanonicalMapping(w);
  }

  lemma {:induction false} SameText(v: Value, w: Value)
    requires Same(v, w) && WellFormed(v)
    ensures JsonText(CanonicalForm(v)) == JsonText(CanonicalForm(w))
    decreases v, 0
  {
    match v
    case List(items) =>
      var a, b := CanonicalForm(v).items, CanonicalForm(w).items;
      forall i | 0 <= i < |items| ensures JsonText(a[i]) == JsonText(b[i]) {
        SameText(items[i], w.items[i]);
      }
      SameItemsSameText(a, b);
    case Mapping(entries) =>
      var p :| IsPermutation(p, |entries|) && SameEntries(v, w, p);
      var a, b := Map(ToField(), Unsorted(v)), Map(ToField(), Unsorted(w));
      forall i | 0 <= i < |entries| ensures a[i] == b[p[i]] {
        SameEntryText(entries[i].key, entries[i].value, w.entries[p[i]].value);
      }
      SameFieldsSameText(v, w, p);
    case _ =>
  }

  lemma {:induction false} SameEntryText(key: string, v: Value, w: Value)
    requires WellFormed(v) && if SetKey(key) then SameSet(v, w) else Same(v, w)
    ensures JsonText(CanonicalEntry(key, CanonicalForm(v)).value)
            == JsonText(CanonicalEntry(key, CanonicalForm(w)).value)
    decreases v, 1
  {
    if SetKey(key) && v.List? {
      var p :| IsPermutation(p, |v.items|) && SameItems(v, w, p);
      var a, b := CanonicalForm(v).items, CanonicalForm(w).items;
      forall i | 0 <= i < |v.items| ensures JsonText(a[i]) == JsonText(b[p[i]]) {
        SameText(v.items[i], w.items[p[i]]);
      }
      SortForgetsOrder(Identity(), Map(Texter(), a), Map(Texter(), b), p);
      MapSort(Texter(), Texter(), Identity(), a);
      MapSort(Texter(), Texter(), Identity(), b);
      TextOfList(SortBy(Texter(), a));
      TextOfList(SortBy(Texter(), b));
    } else {
      SameText(v, w);
      CanonicalKeepsLists(v);
      CanonicalKeepsLists(w);
    }
  }

  lemma CanonicalKeepsLists(v: Value)
    ensures CanonicalForm(v).List? <==> v.List?
  {
  }

  /** transaction_payload_token, up to the digest of the text it returns; None is its ValueError. */
  datatype Token = Token(text: string) | Refused

  function PayloadToken(namespace: string, tableName: string, actions: seq<Value>): Token {
    if namespace == "" || tableName == "" || actions == [] then Refused
    else Token(JsonText(CanonicalForm(Payload(namespace, actions))))
  }

  function Payload(namespace: string, actions: seq<Value>): Value {
    Mapping([Entry("namespace", Str(namespace)), Entry("TransactItems", List(actions))])
  }

  /** Payloads that differ in the order of dictionary entries and set elements only, at
      whatever depth, have the same token. */
  lemma EqualPayloadsHaveEqualTokens(namespace: string, tableName: string, actions: seq<Value>, actions': seq<Value>)
    requires |actions| == |actions'|
             && forall i :: 0 <= i < |actions| ==> Same(actions[i], actions'[i]) && WellFormed(actions[i])
    ensures PayloadToken(namespace, tableName, actions) == PayloadToken(namespace, tableName, actions')
  {
    var v, w := Payload(namespace, actions), Payload(namespace, actions');
    assert "namespace" != "TransactItems" by {
      assert "namespace"[0] != "TransactItems"[0];
    }
    assert !SetKey("namespace") && !SetKey("TransactItems") by {
      assert |"namespace"| == 9 && |"TransactItems"| == 13 && |"SS"| == 2 && |"NS"| == 2 && |"BS"| == 2;
    }
    assert WellFormed(List(actions)) && Same(List(actions), List(actions'));
    assert WellFormed(v);
    assert IsPermutation([0, 1], 2) && SameEntries(v, w, [0, 1]);
    SameText(v, w);
  }

  // ---------------------------------------------------------------- idempotence

  lemma MappingIsFixed(v: Value)
    requires v.Mapping?
    requires forall i :: 0 <= i < |v.entries| ==>
               CanonicalForm(CanonicalForm(v.entries[i].value)) == CanonicalForm(v.entries[i].value)
    ensures CanonicalForm(CanonicalForm(v)) == CanonicalForm(v)
  {
    var es := Unsorted(v);
    var sorted := SortBy(EntryKey(), es);
    SortSorts(EntryKey(), es);
    forall i | 0 <= i < |es| ensures FixedEntry(es[i]) {
      EntryIsFixed(v.entries[i].key, CanonicalForm(v.entries[i].value));
    }
    forall k | 0 <= k < |sorted| ensures FixedEntry(sorted[k]) {
      assert sorted[k] in multiset(sorted);
      assert sorted[k] in es;
    }
    assert Unsorted(Mapping(sorted)) == sorted;
    SortOfSorted(EntryKey(), sorted);
  }

  lemma {:induction false} CanonicalIsIdempotent(v: Value)
    ensures CanonicalForm(CanonicalForm(v)) == CanonicalForm(v)
  {
    match v
    case List(items) =>
      var c := CanonicalForm(v).items;
      forall i | 0 <= i < |items| ensures CanonicalForm(c[i]) == c[i] {
        CanonicalIsIdempotent(items[i]);
      }
      FixedItems(c);
    case Mapping(entries) =>
      forall i | 0 <= i < |entries|
        ensures CanonicalForm(CanonicalForm(entries[i].value)) == CanonicalForm(entries[i].value) {
        CanonicalIsIdempotent(entries[i].value);
      }
      MappingIsFixed(v);
    case Binary(base64) =>
      var e := Entry("$binary", Str(base64));
      assert !SetKey("$binary") by {
        assert |"$binary"| == 7 && |"SS"| == 2 && |"NS"| == 2 && |"BS"| == 2;
      }
      assert Unsorted(Mapping([e])) == [e];
      SortOfSorted(EntryKey(), [e]);
    case _ =>
  }

  predicate FixedEntry(e: Entry) { CanonicalEntry(e.key, CanonicalForm(e.value)) == e }

  lemma FixedItems(items: seq<Value>)
    requires forall i :: 0 <= i < |items| ==> CanonicalForm(items[i]) == items[i]
    ensures CanonicalForm(List(items)) == List(items)
  {
    assert CanonicalForm(List(items)).items == items;
  }

  lemma EntryIsFixed(key: string, c: Value)
    requires CanonicalForm(c) == c
    ensures FixedEntry(CanonicalEntry(key, c))
  {
    if SetKey(key) && c.List? {
      var sorted := SortBy(Texter(), c.items);
      SortSorts(Texter(), c.items);
      forall k | 0 <= k < |sorted| ensures CanonicalForm(sorted[k]) == sorted[k] {
        assert sorted[k] in multiset(sorted);
        assert sorted[k] in c.items;
        var i :| 0 <= i < |c.items| && c.items[i] == sorted[k];
        assert CanonicalForm(c).items[i] == c.items[i];
      }
      FixedItems(sorted);
      SortOfSorted(Texter(), sorted);
    }
  }
}
